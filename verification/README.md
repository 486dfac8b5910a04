# A verified model of the peerq task mesh

peerq is a leaderless task mesh. Every node keeps a table of replicated task
records and a vector clock, claims tasks with fencing tokens and leases, merges
the records that gossip brings, and logs its writes to a write-ahead log from
which it recovers after a crash. This project models that core in Dafny and
proves what it guarantees, over all inputs and all runs.

`dafny verify dfyconfig.toml` checks the whole project.

## What is modelled

| files | part of peerq |
|---|---|
| `VectorClocks.dfy`, `Consensus.dfy`, `Precedence.dfy` | vector clocks, fencing tokens, the lattice key and the merge of task records, with the order of records said field by field |
| `NodeSpec.dfy`, `PeerNode.dfy` | the atomic steps of a node as functions, and the node as a class whose methods are proved to take exactly those steps |
| `Mesh.dfy`, `MeshInvariant.dfy`, `MeshTheorems.dfy`, `Provenance.dfy`, `Convergence.dfy` | any number of nodes, a network that loses, duplicates and reorders, crashes and restarts; the invariant of every run and what follows from it |
| `Boundaries.dfy`, `CrashPoints.dfy` | exactly how far those guarantees reach outside the assumptions below |
| `Octets.dfy`, `Crc32.dfy`, `Wal.dfy`, `Codec.dfy`, `Recovery.dfy`, `Durability.dfy`, `NodeLog.dfy` | the log as bytes and as an object: frames, CRC-32, replay, checkpoint, the record codec, and recovery from the bytes on disk |
| `Histogram.dfy` | the log-linear histogram and its quantiles |
| `Heaps.dfy`, `PriorityQueue.dfy`, `SimClock.dfy` | the array heap, the priority queue and the virtual clock built on it |
| `Credits.dfy`, `ReplayCache.dfy`, `JsonCheck.dfy` | credit windows, the nonce cache and the JSON checker |

The mesh is a function from a list of steps to a state. A step is an action of
one node (submit, send, receive, claim, finish, reclaim, restart, checkpoint, or
a crash inside one of its own writes) or
a tick of the shared clock; a step whose guard fails changes nothing. The
network is the set of all records ever sent, and a delivery may pick any of them
at any time and any number of times. The mesh state also carries a history of
issued tokens that no step reads.

The chain from the theorems to the code is: `PeerNodes.PeerNode` changes its
fields as peerq/node.py does and is proved equal to the steps of `NodeSpec`;
`Mesh.Run` runs those steps; `MeshInvariant.InvAlways` holds after every step of
every run; the theorems follow from it. Down to the bytes:
`NodeLogs.NodeLog` holds the file of the log object and keeps it equal to the
frames of what the node logged, `NodeLogs.NodeLog.PersistRun` does so along any
run, and `NodeLogs.LogObjectRebuildsLiveState` recovers the live state from that
file.

## Assumptions

- Security is off (no keyring), so records carry no signature and merging is not
  followed by resealing.
- Sends do not suspend: claiming, logging, broadcasting and marking a task
  RUNNING is one atomic step, as it is with the zero-latency transport. With a
  send that suspends, the RUNNING write can undo progress
  (`Boundaries.LateRunningRisesIffUndisturbed`), and it can be lost to recovery
  even when the claim is untouched, as soon as the node's clock has moved
  (`Boundaries.LateRunningSoundIffUndisturbed`). The reset of the reclaim audit,
  built from a record of its snapshot, can undo progress in the same way
  (`Boundaries.LateResetSoundIffUndisturbed`). All conditions are exact.
- A crash may fall between the two frames a step logs, a record and the clock,
  when the record is the node's own: that is the step `Tearing` of the mesh, and
  every theorem covers it. The two frames of a received record reach the file
  together. The code writes and flushes them one after the other, and recovery
  never merges a record's clock into the node's; `CrashPoints.CrashBetweenFrames`
  is a run that breaks there. `CrashPoints.CrashPointSoundIff` and
  `CrashPoints.CutFileSoundIff` say exactly which cuts, in entries and in bytes, a
  node restarts from soundly, and `CrashPoints.StepCrashSoundIff` which crashes
  inside a step are harmless.
- All peers read one clock that never goes back. Lease safety needs this; with
  real clocks `time.monotonic()` is per host, and leases are compared across hosts.
- An id is submitted to a node that does not know it yet. The code overwrites a
  known record; `Boundaries.ResubmitRisesIffUnclaimed` and
  `Boundaries.SubmitKeepsInvIff` say exactly when that is harmless.
- Results and error texts are within the limits that decoding enforces, and
  there are at most 128 peers, so that every logged record can be read back.
- For recovery from bytes, every logged entry serialises within the log's
  `max_record_bytes` (`Fits`). This is a real restriction: a 64 KiB payload with a
  64 KiB result is 256 KiB of hexadecimal alone, and the default limit is 256 KiB.
  `append` refuses an entry that is larger, after the table has changed.
- Whether a peer is suspected, which queued id a worker takes next, the lease
  duration read from a payload and the SHA-256 score of a candidate are
  parameters. Nothing is assumed of them.
- Serialising to JSON text and parsing it back are an abstract pair of functions
  of which only one law is used: what was serialised parses to the same document.
  As keys are sorted on the way out, this holds of snapshots whose items are
  listed in the order of their keys; a serialiser refuses other listings here.
- Times, measured values and credits are mathematical numbers, so rounding and
  overflow of floats are not modelled.
- Replacing the log by a checkpoint is one atomic step.

## Where the code differs from what it says

- The histogram documents a relative error of 1/2^B. Because a bucket answers
  with its centre, the code is twice as accurate; 1/2^(B+1) is what is proved.
- Decoding a record tests the length of the signature's hexadecimal text, but
  the conversion to bytes skips whitespace. A document with blanks in that text
  is accepted and its record cannot be read back
  (`RecordCodec.BlankSignatureIsLost`); `RecordCodec.AcceptedReencodes` gives the
  exact condition.
- A lease given as an integer too large for a float makes decoding raise
  OverflowError, where every caller expects TypeError or ValueError. One such
  document in a gossip message ends the receive loop of the node for good
  (`PeerNodes.PeerNode.ReceiveGossip`); in a log it would end recovery, but no
  node writes one, as a logged lease is a float.
- The election of a reclaimer is called deterministic. It is independent of the
  order in which a node lists its peers if and only if no two candidates share
  the highest score (`PeerNodes.ElectionOrderFree`).
- A lease is called expired from its expiry time on, yet a commit is still
  accepted at that instant (`Boundaries.AtExpiryBothMayAct`). Lease safety holds
  strictly after it.
- The nonce cache takes its times from the wall clock, which may step back. Then
  a replay inside the window can be accepted, and an expired key refused.
  `ReplayCaches.SafeExactlyFromHighWater` and
  `ReplayCaches.FairExactlyWhenAscending` are the exact conditions.
- The sender's window bounds what is outstanding, but opening a window again
  does not wake callers already waiting (`Credits.ReopeningLosesWakeups`).

## Model

| member | source | states |
|---|---|---|
| VectorClocks.Normalize | peerq/consensus.py:49-51 | a clock keeps exactly the positive counters it is given |
| VectorClocks.Increment | peerq/consensus.py:56-60 | one peer's counter grows by one, no other changes, and the result is strictly above the clock |
| VectorClocks.CompareDecidesOrder | peerq/consensus.py:71-90 | `compare` decides the pointwise order, in all four answers and in both directions |
| VectorClocks.MergeIsLeastUpperBound | peerq/consensus.py:62-69 | `merge` is the least upper bound of that order |
| VectorClocks.LeqAntisymmetric | peerq/consensus.py:71-90 | clocks below each other are equal |
| Consensus.TokenLeqTotal | peerq/consensus.py:121-135 | any two fencing tokens are comparable |
| Consensus.TokenLeqAntisymmetric | peerq/consensus.py:121-135 | tokens below each other are equal |
| Consensus.TokenLeqTransitive | peerq/consensus.py:121-135 | the token order is transitive |
| Consensus.KeyInjective | peerq/consensus.py:282-326 | records of one task with the same lattice key agree on every field but the clock |
| Consensus.KeyOrderIsPrecedence | peerq/consensus.py:282-326 | the flat key order is: terminal first, then token, then lattice rank, then the tie-breakers |
| Precedence.LexIsFirstDifference | peerq/consensus.py:282-326 | comparing sequences is by prefix or by the smaller element at the first difference |
| Precedence.TokenOrder | peerq/consensus.py:121-131 | tokens compare by epoch and then by the text of the peer name |
| Precedence.KeyOrderIsFieldOrder | peerq/consensus.py:282-326 | the key order is the comparison of the first differing field, in the order of the source, with states from PENDING up to DONE |
| Precedence.MergeKeepsLater | peerq/consensus.py:361-370 | a merge keeps the record that is later in that order, under the merged clock |
| Precedence.LaterPeerWins | peerq/consensus.py:361-370 | of two live records of one epoch, in both argument orders, the one of the later peer name is kept |
| Precedence.HigherStateWins | peerq/consensus.py:108-118 | under one token the higher state is kept, DONE above FAILED above RUNNING above CLAIMED above PENDING |
| Consensus.JoinIsLeastUpperBound | peerq/consensus.py:329-370 | merging gives the least upper bound of two records in the order of keys and clocks |
| Consensus.JoinAbsorbs | peerq/consensus.py:329-370 | merging a record with one above it returns the higher one, whichever comes first |
| Consensus.JoinIdempotent | peerq/consensus.py:329-370 | merging a record with itself returns it |
| Consensus.JoinCommutative | peerq/consensus.py:329-370 | merging commutes on every field, and refuses different tasks from both sides |
| Consensus.JoinAssociative | peerq/consensus.py:329-370 | merging is associative on every field |
| Consensus.DeliveryOrderIrrelevant | peerq/consensus.py:329-370 | two delivery sequences with the same set of records, in any order and with any repetition, leave the same record |
| NodeSpec.ReplayAppend | peerq/node.py:195-257 | recovering from a log in two parts is recovering from the whole |
| NodeSpec.LoggedWriteKeepsInv | peerq/node.py:441-447 | a logged write that moves its record up the lattice keeps the node recoverable |
| NodeSpec.ReceiveKeepsInv | peerq/node.py:374-406 | so does merging any received record |
| NodeSpec.NextTokenInflates | peerq/node.py:477-509 | a claim or reset moves its record up the lattice |
| NodeSpec.ClaimKeepsInv | peerq/node.py:462-528 | a claim keeps the node recoverable although its RUNNING record is never logged |
| NodeSpec.CommitInflates | peerq/node.py:543-572 | a commit that passes the fencing check moves the record up, even over another peer's terminal record |
| NodeSpec.ReclaimKeepsInv | peerq/node.py:596-632 | a reset keeps the node recoverable |
| NodeSpec.RestartKeepsInv | peerq/node.py:195-257 | a recovered node is recoverable again from the same log |
| NodeSpec.TornKeepsInv | peerq/node.py:441-447 | a restart after a crash between the frames of an own write keeps the node recoverable, with the record and the clock from before |
| Mesh.TornIsRestart | peerq/node.py:441-447 | and leaves the table that a restart after the whole write would |
| NodeSpec.ReplayBounded | peerq/node.py:195-257 | recovery never overfills the task table |
| NodeSpec.CheckpointRebuilds | peerq/wal.py:248-309 | a checkpoint replayed from nothing gives back the table and the clock it was taken from |
| NodeSpec.CompactionPreservesMeaning | peerq/wal.py:248-309 | for every suffix, recovering from a checkpoint of the recovered state and then the suffix equals recovering from the old log and then the suffix |
| Mesh.StepRises | peerq/node.py:374-406 | every action of a node leaves terminal records terminal and lowers no token of a live record |
| MeshInvariant.TokenFresh | peerq/node.py:477-478 | the token a node takes next is new and above all it issued for the task before |
| MeshInvariant.ApplyKeepsInv | peerq/node.py:329-632 | every step of the mesh keeps the invariant |
| MeshInvariant.InvAlways | peerq/node.py:329-632 | the invariant holds after every step of every run |
| MeshTheorems.RecoveryRebuildsLiveState | peerq/node.py:195-264 | after every step of every run, crashes inside own writes included, replaying a node's log gives its live clock and table, except that a RUNNING record comes back CLAIMED with the same token and lease |
| MeshTheorems.TokensNeverReused | peerq/node.py:477-509 | over whole runs, a claim or reset, even one torn by a crash, takes a token no record anywhere carries, above all the node issued for that task |
| MeshTheorems.SameTokenSameClaim | peerq/node.py:477-572 | two records anywhere with one positive token come from one claim or reset; two terminal ones agree on state, result and error |
| MeshTheorems.TerminalIsAbsorbing | peerq/node.py:543-572 | per node over any stretch of any run, terminal stays terminal and its token never falls |
| MeshTheorems.RunGrows | peerq/node.py:453-632 | time and the history of tokens only grow, and a claim gets at most one outcome |
| MeshTheorems.ExpiredLeaseNeverCommits | peerq/node.py:543-553 | once the clock is past the expiry of a lease that was ever anywhere, nobody writes a commit under its token, whole or torn |
| MeshTheorems.TakeoverIsLeaseSafe | peerq/node.py:585-631 | with no hypothesis on the lease, a reset is over a record another peer holds, and once the clock has moved on from a reset or an unsuspecting claim nobody ever commits under the token it took over |
| MeshTheorems.OverdueIsReleased | peerq/node.py:596-631 | an audited record is released, under the next token and with its payload, if and only if another peer holds it, it is overdue, its holder is suspected and this node is elected |
| MeshTheorems.FreeTaskIsClaimed | peerq/node.py:462-509 | a free worker claims a known task, under the next token, with its payload and the given lease, if and only if it is PENDING, its own, overdue, or of a suspected holder |
| MeshTheorems.WorkIsCommitted | peerq/node.py:530-572 | over every run, a worker still at a claim was given the task's payload, and commits its outcome, DONE with the result or FAILED with the error, if and only if the claimed duration is not over and no higher token is known |
| MeshTheorems.WritesArePublished | peerq/node.py:441-451 | every whole claim, commit and reset is broadcast as it was logged |
| MeshTheorems.ReceivedIsKept | peerq/node.py:374-406 | a received record is refused only by a full table that does not know it, and otherwise the table and the clock are above it |
| Provenance.PayloadsWereSubmitted | peerq/node.py:266-572 | after every step of every run, every payload in a table, in flight or in a worker's hands was submitted under its id in that run |
| Provenance.PayloadAnywhereWasSubmitted | peerq/node.py:195-572 | and so was the payload of every record a restart would rebuild |
| Provenance.ResultsWereReturned | peerq/node.py:530-572 | over every run, a record anywhere has a result if and only if DONE and an error if and only if FAILED, and a handler returned it to the peer whose token the record carries |
| Convergence.StepIsMerge | peerq/node.py:374-632 | every submit, receive, claim, run, commit and reset equals merging a record into the table |
| Convergence.TableIsJoinOfSeen | peerq/node.py:374-632 | after every step of every run, restarts and torn writes included, a node's table is the join of the records it wrote or received and still knows |
| Convergence.SameRecordsSameState | peerq/node.py:374-406 | nodes that saw the same set of records of a task hold the same record, whatever the order, duplication or loss, in the same run or in different ones |
| Convergence.ExchangeConverges | peerq/node.py:374-451 | if each of two nodes receives the record the other held, at any two points of a run, and neither writes the task after that, both hold the join of the two |
| Boundaries.ResubmitRisesIffUnclaimed | peerq/node.py:266-290 | submitting a known id keeps progress if and only if the task was never claimed, reset or finished |
| Boundaries.ResubmitRecoverableIffAbove | peerq/node.py:275-290 | and keeps the log faithful if and only if the new record's key is not below the overwritten one's |
| Boundaries.SubmitKeepsInvIff | peerq/node.py:266-290 | any submission, of a new or a known id, keeps the node invariant if and only if it is refused, the id is new, or the key is not below |
| Boundaries.LateRunningRisesIffUndisturbed | peerq/node.py:512-528 | a RUNNING write after a suspended broadcast keeps progress if and only if no terminal record and no higher token came in between |
| Boundaries.LateRunningSoundIffUndisturbed | peerq/node.py:512-528 | and keeps the log faithful if and only if the table still holds the claim and the claim carries the clock the node has by then |
| Boundaries.GossipDuringBroadcastLosesTheLog | peerq/node.py:512-528 | gossip of another task with a new clock during the broadcast leaves the claim in place and the record rising, and the log unfaithful |
| Boundaries.LateResetSoundIffUndisturbed | peerq/node.py:596-631 | a reset built from a snapshot record keeps progress if and only if no terminal record and no token above the new one came in between, and the log faithful if and only if its key is not below; the two agree unless the new token is there already |
| Boundaries.OverwriteRecoverableIffAbove | peerq/node.py:275-290 | overwriting a record with a PENDING one under a fresh clock keeps the node invariant if and only if its key is not below |
| Boundaries.AtExpiryBothMayAct | peerq/node.py:547-605 | a run in which, at the instant of expiry, one peer resets the task and the holder still commits under the old token |
| CrashPoints.LogsAreInTime | peerq/node.py:441-447 | over every run, each logged record is at most one own tick ahead of the clock recovered before it, or the next entry is a clock that makes it so |
| CrashPoints.CrashPointSoundIff | peerq/node.py:195-257 | over every run and every prefix of a log, a restart from it is sound if and only if the prefix does not end in a record, or that record was refused, or its clock is at most the recovered clock with one own tick |
| CrashPoints.CutFileSoundIff | peerq/wal.py:108-246 | the same for the log file cut at any byte behind its header |
| CrashPoints.StepCrashSoundIff | peerq/node.py:403-447 | a crash between the frames of a step is harmless for every own write, and for a received record if and only if its clock is at most the node's with one own tick |
| CrashPoints.ClaimAfterRestartRecoverableIff | peerq/node.py:477-509 | after a restart, the next claim can be rebuilt from the log if and only if its clock covers the clock of the record it claims |
| CrashPoints.CrashBetweenFrames | peerq/node.py:403-406 | a run in which a crash between the frames of a received record breaks the node, and its next claim is not what its log rebuilds |
| PeerNodes.Elect | peerq/node.py:61-70 | the elected reclaimer is a candidate of highest score; there is none only among no candidates |
| PeerNodes.ElectionOrderFree | peerq/node.py:61-70 | the answer is independent of the listing order if and only if the highest score is not shared |
| PeerNodes.AtMostOneReclaimer | peerq/node.py:585-606 | two nodes with the same view of who is alive never both elect themselves, if scores differ at the top |
| PeerNodes.LiveExactly | peerq/node.py:591-594 | the candidates are the node itself and exactly the peers it does not suspect |
| PeerNodes.AuditReleasesExactlyTheOverdue | peerq/node.py:596-631 | one round of the audit releases exactly the overdue records of the table it started from and leaves all others alone |
| PeerNodes.PeerNode.Recover | peerq/node.py:195-257 | the recovery loop computes the fold of the log, and on a fresh node is the restart step |
| PeerNodes.PeerNode.SubmitTask | peerq/node.py:266-290 | accepts ids of 1 to 128 characters with payloads of up to 64 KiB, known or with room in the table, and takes the submit step; a refusal changes nothing |
| PeerNodes.PeerNode.ReceiveGossip | peerq/node.py:346-406 | a batch over the limit is dropped; otherwise each decodable document takes the receive step, in order, up to the first whose lease overflows, which ends the loop |
| PeerNodes.PeerNode.ReceiveOne | peerq/node.py:374-406 | one gossip record takes the receive step, with its refusals |
| PeerNodes.PeerNode.Broadcast | peerq/node.py:441-451 | stores the record and logs it with the clock |
| PeerNodes.PeerNode.ClaimTask | peerq/node.py:462-528 | takes the claim step and sends the claim, exactly when no live peer holds the task |
| PeerNodes.PeerNode.FinishTask | peerq/node.py:530-572 | commits and sends exactly when the lease holds and no higher token is known, and otherwise drops the result |
| PeerNodes.PeerNode.ReclaimAudit | peerq/node.py:585-632 | the audit of a snapshot of the table takes one reclaim step per task and sends exactly the resets |
| Crc32.CheckValue | peerq/wal.py:144-146 | the checksum of the digits 123456789 is the published 0xCBF43926 |
| Crc32.SingleByteChangeDetected | peerq/wal.py:144-146 | changing any one byte changes the CRC-32 |
| Crc32.TableFormAgrees | peerq/wal.py:144-146 | one table lookup per byte equals the eight bit steps of section 8 of RFC 1952 |
| Wal.LengthRoundTrip | peerq/wal.py:33-35 | a length packed in four bytes unpacks to itself |
| Wal.FrameLayout | peerq/wal.py:144-153 | a frame is the length and the checksum, each with its highest byte first, then the type and the payload |
| Wal.FileStart | peerq/wal.py:29-31 | a log starts with the letters PQWL, version one and three zero bytes |
| Wal.ReplayAcceptsExactly | peerq/wal.py:169-246 | on any bytes, a strict replay ends by itself if and only if they are a header and whole frames of writable entries; a lenient one also before a cut header or an unfinished frame |
| Wal.ScanIsParsed | peerq/wal.py:190-246 | what a replay yields is the records of frames that are there, and it stops right behind them |
| Wal.ReplayReturnsAppended | peerq/wal.py:108-246 | appending then replaying returns every record in order with its offset, in both modes |
| Wal.TornTail | peerq/wal.py:169-246 | for a cut at any byte, non-strict replay returns exactly the records wholly before it; strict replay behind the header succeeds if and only if the cut is on a frame boundary |
| Wal.SingleByteDamageDetected | peerq/wal.py:202-226 | one changed byte in a frame's checksum, type or payload makes replay raise at that frame after the records before it |
| Wal.AppendExtends | peerq/wal.py:148-153 | a frame appended to the file of some records gives the file of one record more |
| Wal.WriteAheadLog.constructor | peerq/wal.py:84-106 | a new or empty file gets the header; a file with a foreign header is refused |
| Wal.WriteAheadLog.Append | peerq/wal.py:108-159 | writes one frame at the end and returns its offset exactly when open, of a known kind and within size; a refusal writes nothing |
| Wal.WriteAheadLog.ReadAt | peerq/wal.py:190-245 | one turn of the replay loop reads the frame at an offset, with each of its endings |
| Wal.WriteAheadLog.Replay | peerq/wal.py:169-246 | the loop over a moving offset computes the scan of the whole file |
| Wal.WriteAheadLog.Checkpoint | peerq/wal.py:248-309 | replaces the file by one checkpoint frame, or leaves it alone if the document is refused or too large |
| RecordCodec.HexRoundTrip | peerq/consensus.py:159-173 | bytes written as hexadecimal read back as themselves |
| RecordCodec.HexDigits | peerq/consensus.py:159-173 | digits are written in lower case and read in both |
| RecordCodec.StateNames | peerq/consensus.py:97-102 | exactly the five state names are accepted, each as its state |
| RecordCodec.DecodedFields | peerq/consensus.py:175-279 | each field of a decoded record is what its own entry of the document says |
| RecordCodec.HexLength | peerq/consensus.py:194-250 | accepted hexadecimal text has two digits per byte plus its whitespace |
| RecordCodec.RecordRoundTrip | peerq/consensus.py:159-279 | encoding then decoding returns the record if and only if it is well formed, and otherwise is refused |
| RecordCodec.AcceptedReencodes | peerq/consensus.py:175-279 | an accepted document, with a lease that converts to a finite float, re-encodes to one of the same record if and only if it names its writer and has no whitespace in its signature text |
| RecordCodec.BlankSignatureIsLost | peerq/consensus.py:194-250 | any accepted document with its signature replaced by 128 blanks is accepted and cannot be read back |
| Recovery.RecoverEntryDoc | peerq/node.py:195-257 | reading a logged entry's document back has the effect of the entry |
| Recovery.CutFileRecoversPrefix | peerq/node.py:195-257 | recovering from a log file cut at any byte is recovering from the entries wholly before the cut; a file cut inside its header has no valid header and, unless empty, cannot be opened |
| Durability.LogsAreStorable | peerq/node.py:441-447 | over every run, everything a node logged decodes to what was logged |
| Durability.FileRebuildsLiveState | peerq/node.py:195-264 | after every step of every run whose entries fit, replaying the bytes of the file of a node's log rebuilds its live state |
| NodeLogs.NodeLog.AppendEntry | peerq/wal.py:108-167 | appending an entry's document keeps the file equal to the frames of the entries, with the entry added exactly when it fits |
| NodeLogs.NodeLog.WriteCheckpoint | peerq/wal.py:248-309 | a checkpoint keeps that equation with the snapshot as the only entry |
| NodeLogs.NodeLog.PersistStep | peerq/node.py:441-447 | what a step of a node writes keeps the object equal to the node's log, exactly when all of it fits |
| NodeLogs.NodeLog.PersistRun | peerq/node.py:441-447 | along any run, the object ends up holding exactly the node's log, or at some step the node logged something that does not fit |
| NodeLogs.NodeLog.Recover | peerq/node.py:195-257 | replaying the object's file and merging what it yields is replaying the entries |
| NodeLogs.LogObjectRebuildsLiveState | peerq/node.py:195-264 | a log object that holds what a node logged recovers the node's live state from the bytes of its file |
| Histogram.IndexMonotone | peerq/metrics.py:83-95 | a larger value never lands in a smaller bucket |
| Histogram.CapacitySuffices | peerq/metrics.py:47-60 | no value up to `max_value` is clamped into the last bucket |
| Histogram.BucketError | peerq/metrics.py:83-110 | the centre of a value's bucket is within 1/2^(B+1) of it, relatively, from 2^B on, and within 0.5 below |
| Histogram.RankBucket | peerq/metrics.py:126-148 | the bucket where the running count first reaches k is the bucket of the k-th smallest value |
| Histogram.QuantileAccuracy | peerq/metrics.py:126-148 | for any rank whose exact value is within `max_value`, the answer is within the bucket error of it, whatever else was recorded |
| Histogram.RankIsCeiling | peerq/metrics.py:137-137 | the rank is the least integer that reaches q N |
| Histogram.RankedIsExact | peerq/metrics.py:137-146 | the value of that rank has at least q N recorded values at or below it and fewer strictly below |
| Histogram.ExactQuantileUnique | peerq/metrics.py:137-146 | only one value has |
| Histogram.NewHistogram | peerq/metrics.py:33-65 | construction succeeds exactly for 1 to 16 sub-bucket bits and starts empty |
| Histogram.LogLinearHistogram.Record | peerq/metrics.py:112-124 | a non-negative value is added to the recorded sequence; a negative one is refused and changes nothing |
| Histogram.LogLinearHistogram.FindBucket | peerq/metrics.py:137-146 | the cumulative loop finds the first bucket that reaches the rank |
| Histogram.LogLinearHistogram.Quantile | peerq/metrics.py:126-148 | zero when empty, the least and the greatest recorded value at 0 and 1, and otherwise within the bucket error of the value with at least q N recorded values at or below it and fewer strictly below |
| Heaps.RootLeast | peerq/queue.py:92-99 | the root of a heap is below every element |
| Heaps.Push | peerq/queue.py:99-99 | `heappush`, with the comparisons heapq makes, keeps the heap order and adds exactly the element |
| Heaps.Pop | peerq/queue.py:122-122 | `heappop`, which sifts to a leaf and back up, returns the root, keeps the heap order and removes exactly that element |
| PriorityQueue.ServedInOrder | peerq/queue.py:92-134 | over any interleaving of puts and gets, within each priority the items served and then those waiting are the items put, in order |
| PriorityQueue.DrainIsStableSort | peerq/queue.py:47-53 | putting items and then getting as many serves them in descending priority, in the order of insertion within each, and empties the queue |
| PriorityQueue.StableSortUnique | peerq/queue.py:47-53 | these two facts determine the drained sequence |
| PriorityQueue.JoinView | peerq/queue.py:40-44 | ordering by negated priority and sequence number puts a newcomer where the reference queue does |
| PriorityQueue.ItemsNeverCompared | peerq/queue.py:40-44 | between any two entries of a queue's heap, and between a newcomer and any of them, the order over all three fields decides without the items, whatever their own order |
| PriorityQueue.BackpressurePriorityQueue.PutNowait | peerq/queue.py:92-100 | puts into the reference queue unless a positive capacity is reached, which is never exceeded |
| PriorityQueue.BackpressurePriorityQueue.GetNowait | peerq/queue.py:117-124 | takes the head of the reference queue, or reports it empty |
| PriorityQueue.BackpressurePriorityQueue.Peek | peerq/queue.py:136-141 | shows that head and changes nothing |
| SimClocks.AdvanceWakesExactlyTheDue | peerq/clock.py:116-136 | exactly the live sleepers due by the target are woken, once each, by deadline and registration, and all that remain are due later |
| SimClocks.AdvanceInPieces | peerq/clock.py:107-136 | advancing through any rising targets wakes the same sleepers in the same order as advancing to the last at once |
| SimClocks.ChronicleExtends | peerq/clock.py:116-136 | over all advances the times of wake-ups never go backwards |
| SimClocks.SkipCancelledSilent | peerq/clock.py:138-147 | dropping cancelled sleepers from the front changes no wake-up |
| SimClocks.SimClock.Sleep | peerq/clock.py:72-86 | a positive delay registers one sleeper in its place; otherwise nothing is registered |
| SimClocks.SimClock.AdvanceTo | peerq/clock.py:116-136 | wakes what the reference timeline says, counts it, and stops at the target; a target in the past is refused |
| SimClocks.SimClock.Advance | peerq/clock.py:107-114 | the same by duration; a negative one is refused |
| SimClocks.SimClock.Step | peerq/clock.py:138-151 | moves to the earliest live deadline and wakes everyone due then, or reports that nobody sleeps |
| Credits.WindowsAreHonoured | peerq/queue.py:144-207 | over every run, credits are the window less what is outstanding, never negative, so the outstanding never exceed the window, and no caller waits for credits that are there |
| Credits.ReplenishWakesAll | peerq/queue.py:195-207 | a replenishment leaves no caller of that peer pending |
| Credits.ReopeningLosesWakeups | peerq/queue.py:158-163 | opening a window again loses no wake-up if and only if every pending call still asks for more than the new window |
| Credits.ReopenedWindowStrandsWaiter | peerq/queue.py:158-163 | a run in which a caller stays asleep beside ten free credits |
| Credits.CreditFlowController.InitPeer | peerq/queue.py:158-163 | sets the window and keeps the waiting list |
| Credits.CreditFlowController.TryAcquire | peerq/queue.py:169-175 | takes the credits exactly when they are there |
| Credits.CreditFlowController.AcquireCredits | peerq/queue.py:177-193 | takes the credits, or queues a fresh future and suspends |
| Credits.CreditFlowController.ResumeCall | peerq/queue.py:182-193 | a resolved future sends the call around the loop again, to return or to await a fresh future; a cancelled one is removed from the queue |
| Credits.CreditFlowController.ReplenishCredits | peerq/queue.py:195-207 | adds the credits and resolves the waiting futures while the balance is positive |
| ReplayCaches.CacheIsSuffix | peerq/security.py:164-190 | at any times, the cache is the newest `max_entries` accepted events, less some that a later check had its cutoff past |
| ReplayCaches.RefusesExactlyRecentKeys | peerq/security.py:173-190 | after any run, a key among the last `max_entries` accepted and inside the window is refused if `now` is not below an earlier one; only such a key is refused if the cache is in order of time; with rising times, if and only if |
| ReplayCaches.ReplaysAreRefused | peerq/security.py:164-190 | over every run at any times, a key is accepted again only more than `max_entries` acceptances later, or after a check whose cutoff was past its first time |
| ReplayCaches.RisingTimesNoReplay | peerq/security.py:164-190 | with times that do not go back, only out of the window or more than `max_entries` acceptances later |
| ReplayCaches.SafeExactlyFromHighWater | peerq/security.py:173-190 | after all runs up to a highest time, no replay of any key is accepted if and only if `now` is not before that time or the bound is one |
| ReplayCaches.SafeForOne | peerq/security.py:167-190 | a cache bounded by one entry accepts no replay of its last accepted key inside the window, at any times |
| ReplayCaches.FairExactlyWhenAscending | peerq/security.py:176-186 | a cache refuses only keys still in the window, at every time, if and only if its entries are in order of time |
| ReplayCaches.CacheKeysDistinct | peerq/security.py:182-186 | a cache holds each key once |
| ReplayCaches.ClockStepBackAcceptsReplay | peerq/security.py:173-190 | for any three times of which the clock steps back far enough, a key is accepted twice inside the window |
| ReplayCaches.DisorderRefuses | peerq/security.py:176-186 | an entry behind a newer one is refused although it has expired |
| ReplayCaches.NewReplayCache | peerq/security.py:167-171 | a bound that is not positive is refused |
| ReplayCaches.ReplayCache.CheckAndRemember | peerq/security.py:173-190 | answers and updates as the reference check does, on any times |
| JsonCheck.Validate | peerq/security.py:127-161 | the explicit-stack loop ends on every tree and accepts exactly what the recursive definition accepts |
| JsonCheck.FitsIffFineEverywhere | peerq/security.py:138-161 | the recursive definition holds if and only if the node or key at every path is within depth, within length, finite and of a JSON type |

## Left out

- Signing, the keyring and keyed merging: a merged record may stop verifying, so the lattice laws do not hold there.
- TCP, UDP and HTTP transports, discovery, the command line, the exporter and the dashboard: input and output.
- JSON text and UTF-8: an abstract pair of functions; strings to the JSON checker are their encoded bytes.
- fsync, rename and directory sync, and a crash in the middle of a checkpoint: its replacement is one atomic step.
- Appending after a torn tail: opening a log does not cut off a partial frame, so the torn-tail theorem is about one cut.
- The arithmetic of the phi-accrual failure detector: suspicion is a parameter.
- Eventual completion, fairness, and exclusive leases: the code does not guarantee them. Two peers may hold a lease on one task, and a higher token may replace a terminal record.
- Blocking `put` and `get` of the queue and the wake-ups of their shared condition: one notification can reach the wrong kind of waiter, so only the non-blocking effects are modelled.
- The queue of claimed ids inside a node (`_queued_task_ids`, priorities of requeued tasks): any id may be taken next, which includes every order the queue gives.
- Heartbeats, the periodic gossip timer and credit messages between nodes: sending any table record at any time is a step of the mesh.
- Metrics counters, the rate limiter, configuration checks, benchmarks and examples: only easy members.
- NodeLogs.NodeLog.PersistRun: a node whose append is refused has already changed its table; the run stops there.
- Durability.FileRebuildsLiveState: says nothing of a run in which an entry was refused as too large, because the table is then ahead of the log.
- RecordCodec.RecordRoundTrip: a document is the result of each dictionary lookup, not a dictionary; extra keys are ignored by the code.
- Recovery.RecoverEntryDoc: clock documents with a counter that is not an integer are taken as skipped.
- JsonCheck.Validate: the message that goes with a refusal is not modelled.
- `has_pending_sleepers` and `next_deadline` of the virtual clock: they drop cancelled sleepers as `step` does and read the head of the heap.
- SimClocks.SimClock.Sleep: a caller that yields with no positive delay leaves no trace in the model.
- Histogram.QuantileAccuracy: over real numbers; the rounding of floats is not modelled.
