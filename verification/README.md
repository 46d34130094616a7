# Morrow broker: a Dafny model of its protocols

Morrow is a WAL-backed message broker. This project models eight of its cores and proves
what each keeps over every run:

- **Partition replication** (`Replication*.dfy`): a controller-directed leader writes to
  followers, truncates diverging tails, counts a quorum and moves a high watermark; leaders
  change by transfer, election and reassignment. Acknowledged records survive every run that
  acknowledges nothing below the watermark and gives leadership only to replicas fit to
  lead. For each operation the exact condition is proved, and three runs with one
  undisciplined step each lose a record.
- **Replicated metadata** (`Metadata*.dfy`): the command state machine behind assignments,
  reconfiguration and offset commits. One leader per epoch where commands respect history,
  one commit per offset whatever they do.
- **Transactions** (`Transaction*.dfy`): in-memory state, a delta journal and checkpoints.
  Reopening the files restores the memory over runs with crashes, any journal prefix is
  atomic, and an interrupted checkpoint has its exact conditions.
- **Consumer groups** (`Group*.dfy`): three assignment strategies, generations, fenced
  commits, snapshot and rebuild.
- **Consumer cursors** (`Cursor*.dfy`): contiguous commit from out-of-order acknowledgements,
  with a frontier index that must agree with a scan of all messages.
- **Subject routing** (`Subjects.dfy`, `Streams.dfy`): a wildcard trie against a reference
  matcher, an exact overlap test and an unambiguous stream catalog.
- **Segment cache** (`SegmentCache*.dfy`): a single-flight cache under every interleaving of
  threads.
- **Wire frames** (`Utf8.dfy`, `Numerals.dfy`, `Lexing.dfy`, `Frame*.dfy`): the server's
  printer against the client's separately written parser, byte by byte.

State that the program updates in place is a class whose methods are proved against
functions on a datatype; the theorems are about those functions and their runs. Loops of the
program are loops here. `Common.dfy` and `Text.dfy` hold shared vocabulary. Machine integers
are unbounded naturals; saturation, where the program saturates, is written out.

Where the code does not meet a property on all inputs, the model keeps the code and a lemma
gives the exact condition:

- acknowledged records: `AppendKeepsLogIff`, `TransferKeepsLogIffCatchUpSucceeds`,
  `ElectKeepsLogIff`, `AssignKeepsLogIff`, `LeaderServesExactlyIff`;
- leadership and commit history: `StepForwardIff`, `ExpansionKeepsHistoryIff`,
  `LeaderUniqueIffEpochBelowMax`, `OneChecksumIffOffsetBelowMax`;
- an interrupted checkpoint: `InterruptedCheckpointIff`, `PruningBlocksReopening`;
- wire frames: `AckRoundTripsIff`, `DeliveryRoundTripsIff`, `AckSubjectRoundTripsIff`.

Concrete failures are in `ReplicationWitnesses`, `TransactionWitnesses` and
`ExpansionCanForkAnEpoch`.

Check everything with `dafny verify dfyconfig.toml`.

## Model

| member | source | states |
|---|---|---|
| ReplicationSafety.AcknowledgedRecordsSurvive | crates/server/src/partition_replication.rs:121-233 | an acknowledged record is at its offset in the log of whoever leads at any later point of a disciplined run, with appends at any offset from the watermark on and while returned replicas are catching up |
| ReplicationSafety.LeaderServesExactlyIff | crates/server/src/partition_replication.rs:264-277 | after a disciplined run the leader serves every acknowledged record at its offset, with epochs that never decrease, and it serves nothing else if and only if every acknowledged append was at most one above the watermark of its time |
| ReplicationSafety.LeaderServesExactlyAcknowledged | crates/server/src/partition_replication.rs:264-277 | then what the leader serves is the acknowledged records, each once, in offset order |
| ReplicationElections.MajorityAlwaysElects | crates/server/src/partition_replication.rs:216-233 | whenever a majority is available an election succeeds and picks an available holder of the watermark record |
| ReplicationSafety.AppendKeepsLogIff | crates/server/src/partition_replication.rs:121-183 | an acknowledged append goes on serving every acknowledged record if and only if its offset is not below the watermark |
| ReplicationSafety.TransferKeepsLogIffCatchUpSucceeds | crates/server/src/partition_replication.rs:195-214 | an accepted transfer hands over every served record if and only if catch-up of the candidate would have succeeded; where only acknowledged records are served, the same for those |
| ReplicationSafety.ElectKeepsLogIff | crates/server/src/partition_replication.rs:216-233 | an election keeps every served record if and only if catch-up of the replica it chooses would have succeeded; where only acknowledged records are served, the same for those |
| ReplicationSafety.AssignKeepsLogIff | crates/server/src/partition_replication.rs:69-119 | a reassignment keeps every served record if and only if there is none or the new leader was a replica that passes the candidate check and agrees with them; likewise for the acknowledged ones |
| ReplicationSafety.CatchUpSucceedsIff | crates/server/src/partition_replication.rs:350-368 | catch-up succeeds if and only if the replica agrees with what the leader serves, and then it holds exactly that, every acknowledged record included |
| ReplicationWitnesses.SkippingCatchUpLosesARecord | crates/server/src/partition_replication.rs:195-214 | a run from an initial state, disciplined but for its last step, in which a transfer to a replica that has not caught up loses an acknowledged record |
| ReplicationWitnesses.ElectingTooEarlyLosesARecord | crates/server/src/partition_replication.rs:216-233 | a run from an initial state, disciplined but for its last step, in which an election of a replica that has not caught up loses an acknowledged record |
| ReplicationWitnesses.RetryBelowWatermarkLosesARecord | crates/server/src/partition_replication.rs:350-368 | a run from an initial state, disciplined but for one retry below the watermark, in which a catch-up of the leader then removes an acknowledged record |
| ReplicationWitnesses.AppendingAheadServesMore | crates/server/src/partition_replication.rs:121-183 | a disciplined run from an initial state that acknowledges offset 1 alone, after which the leader serves a record at offset 0 that nobody acknowledged |
| MetadataSafety.OneLeaderPerEpoch | crates/server/src/raft.rs:241-254 | over every run that respects history epochs and generations never decrease and one epoch has one leader |
| MetadataSafety.LeaderIsActive | crates/server/src/raft.rs:275-524 | over every run whose commands name usable assignments the leader is in a non-empty commit set inside the replicas |
| MetadataSafety.StepForwardIff | crates/server/src/raft.rs:275-524 | a command moves every assignment forward if and only if it respects history; leader updates, reconfigurations and commits always do |
| MetadataSafety.CommitsAgree | crates/server/src/raft.rs:338-396 | over every command sequence acknowledged offsets and epochs never go back, one offset has one checksum, leader and epoch, and the next offset is the watermark plus one |
| MetadataSafety.CommitsHaveNoGap | crates/server/src/raft.rs:338-396 | over every command sequence, before an offset is acknowledged every smaller offset was |
| MetadataSafety.ExpansionKeepsHistoryIff | crates/server/src/raft.rs:299-325 | an accepted expansion keeps an existing partition's history in order if and only if the command's own entry does |
| MetadataSafety.ExpansionCanForkAnEpoch | crates/server/src/raft.rs:299-325 | a concrete accepted expansion that gives one epoch a second leader |
| MetadataSafety.LeaderUniqueIffEpochBelowMax | crates/server/src/raft.rs:397-426 | an accepted leader change leaves the epoch unchanged if and only if the epoch is the last u64 |
| MetadataSafety.OneChecksumIffOffsetBelowMax | crates/server/src/raft.rs:338-396 | a different commit at the current watermark is acknowledged if and only if the watermark is the last u64 and its epoch is not older than the recorded one |
| TransactionRuns.ReopenRestoresMemory | crates/server/src/transaction.rs:135-174 | after any operations and any crashes, opening the files gives back exactly the coordinator in memory |
| TransactionRuns.CrashShowsAllOrNothing | crates/server/src/transaction.rs:440-542 | wherever a crash hits the journalling of an operation, the checkpoint of the same operation included, and whatever journal prefix it leaves, opening succeeds, keeps the refinement, fencing and quotas, and shows each transaction in full or not at all |
| TransactionRuns.FencingAndQuotasHold | crates/server/src/transaction.rs:601-626 | in every state reachable by operations and crashes live transactions carry their producer's current epoch and all totals and the live count are within the limits |
| TransactionRuns.CommitReturnsWhatWasAccepted | crates/server/src/transaction.rs:362-382 | the committed batch is exactly the writes, offsets and view mutations that took effect, in order, across such crashes |
| TransactionRuns.OutcomeIsFinal | crates/server/src/transaction.rs:384-434 | a finished transaction keeps outcome and contents for as long as it is kept, across crashes that keep what was synced |
| TransactionCheckpoint.InterruptedCheckpointIff | crates/server/src/transaction.rs:574-577 | both conditions for a checkpoint in any journalling step of any operation, interrupted between the rename and the emptying of the journal |
| TransactionCheckpoint.InterruptedReopenReturnsIff | crates/server/src/transaction.rs:544-581 | reopening then gives the memory back if and only if every push in the journal follows the beginning of its transaction there and the journal names no dropped transaction |
| TransactionCheckpoint.InterruptedReopenFailsIff | crates/server/src/transaction.rs:544-581 | on a new state file and an old journal, reopening fails if and only if an entry needs a dropped transaction that the journal does not begin itself |
| TransactionCheckpoint.PruningBlocksReopening | crates/server/src/transaction.rs:486-577 | a commit as 64th journal entry, of the first transaction by name with as many finished ones as are kept: its checkpoint, interrupted, leaves files that cannot be opened if and only if the transaction was begun before the journal |
| TransactionCheckpoint.WritesAreRepeated | crates/server/src/transaction.rs:486-577 | an accepted write as 64th journal entry, to a transaction begun before the journal and with nothing to prune: its checkpoint, interrupted, leaves files that open with every write of the journal twice |
| TransactionCheckpoint.InterruptedCheckpointRepeats | crates/server/src/transaction.rs:496-577 | after any interrupted checkpoint a transaction begun before the journal holds what it held plus all the journal pushed onto it again |
| TransactionWitnesses.InterruptedCheckpointBlocksReopening | crates/server/src/transaction.rs:553-577 | a run from empty files whose last commit, interrupted in its checkpoint, leaves files that cannot be opened |
| TransactionWitnesses.InterruptedCheckpointRepeatsAWrite | crates/server/src/transaction.rs:496-577 | a run from empty files whose last write, interrupted in its checkpoint, is there twice after reopening |
| GroupRuns.AssignmentIsExactAndBalanced | crates/server/src/consumer_group.rs:394-475 | in every reachable state with a member, each partition has exactly one live owner and loads are as the strategy promises |
| GroupRuns.RebuildIsBisimilar | crates/server/src/consumer_group.rs:319-382 | a rebuilt coordinator answers every later sequence of operations alike and ends with the same snapshot |
| GroupRuns.OneCommitterPerGeneration | crates/server/src/consumer_group.rs:253-277 | two accepted commits of a partition in one generation come from the same member |
| GroupRuns.CommittedNeverDecreases | crates/server/src/consumer_group.rs:253-277 | committed offsets survive and never decrease, across rebalances, expansion, recovery and replication |
| GroupRuns.StaleTokensAreRefused | crates/server/src/consumer_group.rs:384-392 | after any change of generation every older token is refused and changes nothing |
| GroupRuns.RejoinMovesNothing | crates/server/src/consumer_group.rs:143-167 | a sticky rejoin moves no partition and leaves no rebalance pending |
| GroupRuns.ExpansionMovesNothing | crates/server/src/consumer_group.rs:173-185 | a sticky expansion only adds the new partitions |
| GroupRuns.BumpsIff | crates/server/src/consumer_group.rs:394-396 | exactly which events change the generation |
| GroupRuns.ExpiresIff | crates/server/src/consumer_group.rs:233-250 | a member refreshed by join, heartbeat or refresh is expired later if and only if the heartbeat timeout has passed since |
| CursorRuns.FrontierRefinesScan | crates/server/src/consumer_cursor.rs:66-129 | over every such run the indexed and the scanning consumer hold the same cursors, answer the next event alike and choose the same message, and an indexed search starts from exact frontiers |
| CursorDelivery.AtLeastOnce | crates/server/src/consumer_cursor.rs:140-305 | every matching record between the start and the commit point was acknowledged, fell below a retention floor or was compacted; exactly the latter two are no longer retained |
| CursorDelivery.UnsettledIsOffered | crates/server/src/consumer_cursor.rs:66-129 | a matching record published from the start on that was neither acknowledged nor lost to retention or compaction is retained, and is a candidate unless leased |
| CursorDelivery.CommitOnlyGrows | crates/server/src/consumer_cursor.rs:140-305 | over every run commit points never move back and the window is respected |
| Subjects.CollectIsExact | crates/protocol/src/subject.rs:122-157 | a value is found exactly when a live pattern of it satisfies the reference matcher |
| Streams.OverlapIsExact | crates/server/src/stream.rs:248-265 | the overlap test holds if and only if some concrete subject matches both patterns |
| Streams.ResolvesToTheOnlyBinder | crates/server/src/stream.rs:219-230 | a concrete subject resolves to a stream if and only if that stream binds it, and then no other does |
| Streams.InboxIsNeverCaptured | crates/server/src/stream.rs:163-172 | no accepted stream binds an inbox subject |
| Streams.FilterFindsExactlyReachableStreams | crates/server/src/stream.rs:232-245 | a filter selects exactly the streams that some subject matching it is routed to |
| SegmentCacheRuns.SingleFlight | crates/server/src/backup.rs:816-864 | under every interleaving one loader per key, never of a cached key; an exact queue and byte count; verified results; no lost wake-up |
| SegmentCache.EvictionIsMinimal | crates/server/src/backup.rs:844-852 | eviction drops a prefix of the queue, and one entry less would not have made room |
| FrameRoundTrip.DeliveryRoundTripsIff | crates/client/src/client/frame_parser.rs:206-298 | a printed delivery is read back, the rest of the stream untouched, if and only if its tokens are clean, its reply is not a dash, its key is not empty, its headers are trimmed single lines without colon in the name, and its body is within the limit |
| FrameRoundTrip.AckRoundTripsIff | crates/client/src/client/frame_parser.rs:317-419 | a printed acknowledgement is read back, the rest of the stream untouched, if and only if message id and stream are single tokens and the stream does not start with the contract prefix |
| Frames.AckSubjectRoundTripsIff | crates/protocol/src/frames.rs:155-175 | an acknowledgement subject is read back if and only if the consumer id has no slash |
| Frames.EncodedLength | crates/protocol/src/frames.rs:230-289 | the formula equals the length of the encoded frame for every delivery |
| Utf8.DecodesExactly | crates/client/src/client/frame_parser.rs:587-589 | decoding accepts exactly the encodings and gives back the encoded text |
| ReplicationSafety.WrittenLogs | crates/server/src/partition_replication.rs:147-167 | after the write phase the leader holds every acknowledged record and the new one, no replica that is not catching up contradicts them, and unless a follower failed each of them has the new record |
| ReplicationSafety.AppendKeepsInv | crates/server/src/partition_replication.rs:121-183 | an append keeps the safety invariant, and an acknowledgement never replaces an earlier one |
| ReplicationSafety.CatchUpKeepsInv | crates/server/src/partition_replication.rs:185-193 | catch-up keeps the safety invariant |
| ReplicationSafety.PromoteKeepsInv | crates/server/src/partition_replication.rs:207-213 | a candidate that contradicts nothing acknowledged and passes the check has every acknowledged record |
| ReplicationSafety.RunKeepsInv | crates/server/src/partition_replication.rs:121-233 | the safety invariant holds after every disciplined run |
| ReplicationElections.ReplicateKeepsCommitted | crates/server/src/partition_replication.rs:333-348 | no follower write changes a record at or below the watermark |
| ReplicationElections.CommitMeansMajority | crates/server/src/partition_replication.rs:169-175 | moving the watermark puts its record on a majority of the replicas |
| ReplicationElections.RunKeepsMajority | crates/server/src/partition_replication.rs:121-233 | with a fixed replica set the watermark record stays on a majority after every run, disciplined or not |
| ReplicationWitnesses.AcknowledgedWithoutThird | crates/server/src/partition_replication.rs:121-183 | a concrete disciplined acknowledgement at offset 0 while one replica holds another record there |
| ReplicationWitnesses.WatermarkMovesBack | crates/server/src/partition_replication.rs:175 | in a reachable state retrying an offset below the watermark is acknowledged and moves the watermark back |
| ReplicationSafety.AppendServesExactlyIff | crates/server/src/partition_replication.rs:121-183 | the same exact condition for one acknowledged append |
| ReplicationSafety.ReconcileConsistent | crates/server/src/partition_replication.rs:333-348 | a follower write contradicts no acknowledged record and leaves the new record in place |
| ReplicationSafety.ReplicateConsistent | crates/server/src/partition_replication.rs:161-167 | a follower that contradicts no acknowledged record still does not after the follower loop, and holds the new record if the loop did not fail, whatever the other followers hold |
| MetadataSafety.AssignmentsEvolve | crates/server/src/raft.rs:397-497 | between any two moments of a run an assignment only moves forward |
| MetadataSafety.StepKeepsLog | crates/server/src/raft.rs:338-396 | whatever the command, an acknowledgement is of the watermark after it and carries the logged entry |
| MetadataSafety.StepKeepsUsable | crates/server/src/raft.rs:275-524 | a command that names usable assignments keeps all assignments usable |
| MetadataSafety.CommitsStayBehind | crates/server/src/raft.rs:338-497 | over every run that respects history no recorded commit is ahead of its assignment |
| TransactionJournal.AdmissibleKeepsGood | crates/server/src/transaction.rs:496-542 | every delta the coordinator writes applies and keeps fencing and quotas |
| TransactionJournal.TerminalStays | crates/server/src/transaction.rs:496-542 | replaying more of a journal never changes a finished transaction |
| TransactionJournal.PrefixIsAtomic | crates/server/src/transaction.rs:440-542 | any journal prefix replays to a good state that shows each transaction not at all or exactly as the full replay does |
| TransactionJournal.StatusJournalIsComplete | crates/server/src/transaction.rs:206-230 | journalling at least the changed statuses reproduces the whole change |
| TransactionRuns.HoldsWhatWasAccepted | crates/server/src/transaction.rs:262-339 | a stored transaction holds exactly what took effect for it since it began, in order, across crashes that keep what was synced |
| TransactionRuns.NextIsGood | crates/server/src/transaction.rs:135-434 | every operation and every crash with reopening keeps memory equal to the replay of the files |
| TransactionRuns.NextFollows | crates/server/src/transaction.rs:176-434 | every operation and every crash that keeps what was synced changes each transaction only as the operation says |
| TransactionRuns.PhaseFollows | crates/server/src/transaction.rs:466-494 | however far a journalling step has got, every transaction is as before or as the operation says |
| TransactionPhases.JournalStep | crates/server/src/transaction.rs:466-494 | journalling keeps memory equal to the replay of the files, checkpoint and pruning included |
| TransactionPhases.FenceJournal | crates/server/src/transaction.rs:205-230 | the deltas written by fencing replay to the fenced state |
| TransactionPhases.PhasesCompose | crates/server/src/transaction.rs:176-434 | an operation is its journalling steps: each starts where the one before ended, and the operation ends where the last does |
| TransactionPhases.PhasesOk | crates/server/src/transaction.rs:176-434 | every journalling step of every operation writes admissible deltas that replay to the memory it leaves |
| TransactionCheckpoint.ReplayFailsIff | crates/server/src/transaction.rs:496-542 | replay fails if and only if some entry needs a transaction that neither the start state nor the journal before it has |
| GroupAssignment.AssignedIsExact | crates/server/src/consumer_group.rs:394-475 | under every strategy each partition has exactly one owner and nothing else is assigned |
| GroupAssignment.StickyLoadBound | crates/server/src/consumer_group.rs:445-475 | sticky loads never exceed the ceiling of the average |
| GroupAssignment.StickyKeeps | crates/server/src/consumer_group.rs:445-475 | with the same members nobody loses a partition, and with the same count nothing changes |
| GroupAssignment.BalancedLoads | crates/server/src/consumer_group.rs:394-443 | range and round-robin loads are the floor or the ceiling of the average |
| GroupAssignment.RangeIsContiguous | crates/server/src/consumer_group.rs:394-443 | a range share has no holes |
| GroupRuns.RebuildRoundTrip | crates/server/src/consumer_group.rs:291-382 | record and rebuild restore everything but the previous assignments, or fence the group |
| GroupRuns.NextIsGood | crates/server/src/consumer_group.rs:143-277 | every operation, recovery and replication keeps the invariant and only moves forward |
| Cursors.NextIsAbove | crates/server/src/consumer_cursor.rs:371-386 | the next offset is the least matching one at or above the commit point |
| Cursors.InsertKeepsFrontier | crates/server/src/consumer_cursor.rs:236-241 | publishing adds exactly its offset and keeps the frontier strictly ascending, in any order of arrival |
| Cursors.RetainKeepsFrontier | crates/server/src/consumer_cursor.rs:218-220 | a retention floor drops exactly the lower entries and keeps the order |
| Cursors.WithoutKeepsFrontier | crates/server/src/consumer_cursor.rs:244-248 | compaction drops exactly one offset and keeps the order |
| Cursors.FirstOfPartition | crates/server/src/consumer_cursor.rs:98-121 | through exact indexes a partition's first deliverable offset is its first candidate message |
| CursorRuns.OffsetsFollow | crates/server/src/consumer_cursor.rs:371-386 | how publish, retention and compaction change the matching offsets of every partition |
| CursorRuns.AckAgrees | crates/server/src/consumer_cursor.rs:169-188 | an acknowledgement has the same effect and reply on the frontier path and the scan path |
| CursorRuns.CursorFollows | crates/server/src/consumer_cursor.rs:140-222 | with or without an index every cursor moves as the scan says |
| CursorRuns.MovedFrontierAgrees | crates/server/src/consumer_cursor.rs:104-248 | after every event the moved frontier agrees with the scan from the new commit point on |
| CursorRuns.RunKeepsInv | crates/server/src/consumer_cursor.rs:89-305 | after every run of publishes in any offset order, acknowledgements, retention, compaction and indexed deliveries, positions are unique and each frontier is strictly ascending and equal to the retained matching offsets from the commit point on |
| CursorRuns.ObservingKeepsCandidates | crates/server/src/consumer_cursor.rs:285-305 | lifting cursors to the retained offsets neither adds nor removes a candidate |
| CursorRuns.IndexedPicksTheSame | crates/server/src/consumer_cursor.rs:66-129 | the indexed choice is the scanned choice |
| CursorDelivery.AdvanceIsContiguous | crates/server/src/consumer_cursor.rs:338-362 | the commit point passes exactly a run of acknowledged offsets and stops at the first matching one that is not acknowledged |
| CursorDelivery.WindowHolds | crates/server/src/consumer_cursor.rs:173-183 | the acknowledgements held back never exceed the window |
| CursorDelivery.RunAccounts | crates/server/src/consumer_cursor.rs:140-305 | over every run a published record is retained if and only if it is not gone, and nothing committed is unaccounted for |
| Cursors.PoppedKeepsTheRest | crates/server/src/consumer_cursor.rs:104-111 | with an exact index exactly the entries from the commit point on remain, in order |
| CursorRuns.SearchStartsExact | crates/server/src/consumer_cursor.rs:89-99 | in every reachable world the frontiers an indexed search starts from are exact, those it fills in first included |
| Subjects.MatchMeaning | crates/protocol/src/subject.rs:34-47 | a pattern without tail matches position by position; a tail matches any remainder, the empty one included |
| Subjects.InsertHas | crates/protocol/src/subject.rs:82-95 | insertion adds one pair and disturbs no other |
| Subjects.RemoveHas | crates/protocol/src/subject.rs:97-120 | removal deletes one pair and disturbs no other |
| Subjects.CollectSound | crates/protocol/src/subject.rs:140-157 | everything collected comes from a stored pattern that matches |
| Subjects.CollectComplete | crates/protocol/src/subject.rs:140-157 | every stored pattern that matches is collected |
| Subjects.MatchesNodeIsNonEmpty | crates/protocol/src/subject.rs:159-173 | the short-circuit test holds exactly when something is collected |
| Streams.HitsAreBinders | crates/server/src/stream.rs:219-230 | the trie finds exactly the streams that bind a subject |
| Streams.DefinitionErrorIff | crates/server/src/stream.rs:134-175 | exactly the definitions within all limits whose bindings are valid and stay clear of the inbox pass |
| SegmentCache.FinishKeepsInv | crates/server/src/backup.rs:840-857 | ending a load keeps the queue an ordering of the entries and the byte count their total within capacity |
| SegmentCacheRuns.RunKeepsInv | crates/server/src/backup.rs:816-864 | loaders, tokens, waiters and cache stay consistent under every interleaving |
| SegmentCacheRuns.RunsExtend | crates/server/src/backup.rs:816-864 | every enabled event of a reachable world has a next reachable world |
| Numerals.DecimalRoundTrip | crates/client/src/client/frame_parser.rs:311-315 | a printed number is read back exactly when it fits the type |
| Numerals.HexRoundTrip | crates/client/src/client/frame_parser.rs:566-579 | decoding undoes printing for every byte string |
| Lexing.TokensRoundTrip | crates/client/src/client/frame_parser.rs:8 | whitespace-free tokens joined by spaces are split back as they were |
| Lexing.SplitLine | crates/client/src/client/frame_parser.rs:590 | a line without CRLF is cut off at the CRLF that ends it |
| Lexing.TrimShape | crates/client/src/client/frame_parser.rs:603 | trimming gives a stretch of the text without whitespace at either end |
| FrameRoundTrip.LineReads | crates/client/src/client/client.rs:488-502 | a line without newline reaches the parser whole and the bytes after it stay unread |
| FrameRoundTrip.AckParses | crates/client/src/client/frame_parser.rs:317-433 | the parser recovers every field of a clean acknowledgement, with and without position and contract |
| FrameRoundTrip.ParsedAckIsClean | crates/client/src/client/frame_parser.rs:317-419 | whatever is accepted has a single-token message id and a stream that is no contract |
| FrameRoundTrip.HeadersParse | crates/client/src/client/frame_parser.rs:587-606 | clean headers are read back |
| FrameRoundTrip.ParsedHeadersAreClean | crates/client/src/client/frame_parser.rs:587-606 | whatever headers are accepted are trimmed, single-line and without colon in the name |
| FrameRoundTrip.CleanDeliveryReads | crates/client/src/client/frame_parser.rs:206-298 | a clean delivery within the client's limit is read back and past the limit it is refused |
| Replication.ReconcileCommitted | crates/server/src/partition_replication.rs:350-368 | the catch-up loop succeeds exactly when the replica agrees with the leader below the watermark; then it holds the leader's committed records and no tail, otherwise nothing changed |
| Replication.ReplicateToFollowers | crates/server/src/partition_replication.rs:161-167 | followers are written in ascending order, the first failure stops the loop and what was written stays |
| Replication.AppendToPartition | crates/server/src/partition_replication.rs:133-182 | guards, leader write, follower writes, quorum count and watermark in the program's order, with every error case |
| Replication.FirstSafe | crates/server/src/partition_replication.rs:223-229 | the search returns the least available replica that passes the candidate check, or none if there is none |
| Replication.PartitionReplication.constructor | crates/server/src/partition_replication.rs:62-67 | starts with no partitions and the given nodes available |
| Replication.PartitionReplication.SetAvailable | crates/server/src/partition_replication.rs:235-237 | replaces the available nodes and nothing else |
| Replication.PartitionReplication.Assign | crates/server/src/partition_replication.rs:69-119 | refuses bad and stale assignments unchanged; otherwise surviving logs and the watermark are kept and new replicas start empty |
| Replication.PartitionReplication.Append | crates/server/src/partition_replication.rs:121-183 | the append step on the named partition, all other partitions untouched |
| Replication.PartitionReplication.CatchUp | crates/server/src/partition_replication.rs:185-193 | the catch-up step on the named partition, all other partitions untouched |
| Replication.PartitionReplication.TransferLeadership | crates/server/src/partition_replication.rs:195-214 | leadership moves only to an available replica holding the watermark record, with the epoch raised |
| Replication.PartitionReplication.ElectSafeLeader | crates/server/src/partition_replication.rs:216-233 | the smallest available replica that passes the candidate check becomes leader with the epoch raised, or nothing changes |
| Metadata.DurableState.constructor | crates/server/src/raft.rs:256-273 | starts empty |
| Metadata.DurableState.ApplyCommand | crates/server/src/raft.rs:275-524 | every modelled command changes the state and answers, fields included, as the step function says |
| Metadata.DurableState.Bootstrap | crates/server/src/raft.rs:277-298 | applied once only; later streams of the same name win and assignments are normalised |
| Metadata.DurableState.Expand | crates/server/src/raft.rs:299-325 | refused unless partitions and partitioning epoch grow and no named partition lies outside the stream |
| Metadata.DurableState.UpdateLeader | crates/server/src/raft.rs:397-426 | idempotent for the current leader; otherwise only the next epoch, an active member and a stable phase are accepted |
| Metadata.DurableState.Reconfigure | crates/server/src/raft.rs:427-497 | generation, commit-set, majority, activation-proof and epoch checks in the program's order |
| Metadata.DurableState.CommitOffset | crates/server/src/raft.rs:338-396 | retries are answered again, stale writers and wrong offsets refused, the next offset recorded otherwise |
| Transactions.AbortEach | crates/server/src/transaction.rs:207-221 | the loop aborts exactly the listed transactions and keeps all else |
| Transactions.CollectStatuses | crates/server/src/transaction.rs:422-431 | one status delta per listed transaction, in order |
| Transactions.ReplayLoop | crates/server/src/transaction.rs:150-172 | replay applies the deltas in order and fails if any one fails |
| Transactions.TransactionCoordinator.OpenFiles | crates/server/src/transaction.rs:135-174 | opening checks the limits, loads the checkpoint and replays the journal, or reports the error |
| Transactions.TransactionCoordinator.Journal | crates/server/src/transaction.rs:466-494 | every delta is appended in order and the 64th entry triggers a checkpoint |
| Transactions.TransactionCoordinator.WriteCheckpoint | crates/server/src/transaction.rs:544-581 | the oldest surplus terminal transactions by id are dropped, the rest becomes the checkpoint, the journal is emptied |
| Transactions.TransactionCoordinator.BeginTransaction | crates/server/src/transaction.rs:176-260 | identity, reuse, fencing and concurrency checks in order; a raised epoch fences even if the quota then refuses |
| Transactions.TransactionCoordinator.FenceProducer | crates/server/src/transaction.rs:205-230 | the producer's live transactions are aborted and journalled before its epoch rises |
| Transactions.TransactionCoordinator.AppendWrite | crates/server/src/transaction.rs:262-289 | a write enters an open, unexpired transaction within the message, byte and partition limits |
| Transactions.TransactionCoordinator.CommitOffset | crates/server/src/transaction.rs:291-314 | an offset enters under the message and partition limits |
| Transactions.TransactionCoordinator.MutateView | crates/server/src/transaction.rs:316-339 | a view mutation enters under the message and byte limits |
| Transactions.TransactionCoordinator.Prepare | crates/server/src/transaction.rs:341-360 | only an open, unexpired transaction is prepared |
| Transactions.TransactionCoordinator.Commit | crates/server/src/transaction.rs:362-382 | only a prepared, unexpired transaction is committed, and its batch is returned |
| Transactions.TransactionCoordinator.Abort | crates/server/src/transaction.rs:384-407 | only a live transaction is aborted |
| Transactions.TransactionCoordinator.Recover | crates/server/src/transaction.rs:409-434 | overdue live transactions are aborted and counted, and every aborted one is journalled again |
| Transactions.TransactionCoordinator.New | crates/server/src/transaction.rs:124-133 | refuses a zero limit, otherwise an empty coordinator without files |
| GroupAssignment.FindPreviousOwner | crates/server/src/consumer_group.rs:445-475 | the first previous owner in name order, if any |
| GroupAssignment.FindLeastLoaded | crates/server/src/consumer_group.rs:445-475 | the least loaded member, the smaller name on a tie |
| GroupAssignment.FindOwner | crates/server/src/consumer_group.rs:394-475 | the owner each strategy chooses; the clamp of the range strategy never applies |
| GroupAssignment.AssignAll | crates/server/src/consumer_group.rs:394-443 | the assignment loop places every partition in turn |
| Groups.RestoreAssignments | crates/server/src/consumer_group.rs:327-382 | snapshot entries are restored in order, later ones replacing earlier ones |
| Groups.RestoreMembers | crates/server/src/consumer_group.rs:327-382 | members are restored under their ids |
| Groups.GroupCoordinator.New | crates/server/src/consumer_group.rs:124-141 | refuses bad limits, otherwise starts an empty group |
| Groups.GroupCoordinator.Rebuild | crates/server/src/consumer_group.rs:327-382 | with the fence membership is dropped and the generation bumped, without it the group continues |
| Groups.GroupCoordinator.Rebalance | crates/server/src/consumer_group.rs:394-443 | new generation, new assignment, and a pending rebalance exactly when some partition moved |
| Groups.GroupCoordinator.Join | crates/server/src/consumer_group.rs:143-167 | new members under the quota and rejoining ones are admitted and rebalanced |
| Groups.GroupCoordinator.ExpandPartitions | crates/server/src/consumer_group.rs:173-185 | the count never shrinks; growth rebalances |
| Groups.GroupCoordinator.Heartbeat | crates/server/src/consumer_group.rs:187-207 | stale generations and unknown members are refused; otherwise the member is refreshed and a rebalance of this generation completed |
| Groups.GroupCoordinator.RefreshMember | crates/server/src/consumer_group.rs:209-216 | refreshes a known member whatever its generation |
| Groups.GroupCoordinator.Leave | crates/server/src/consumer_group.rs:218-230 | a current member leaves and the group rebalances |
| Groups.GroupCoordinator.Expire | crates/server/src/consumer_group.rs:233-250 | exactly the timed-out members are removed, in name order |
| Groups.GroupCoordinator.CommitOffset | crates/server/src/consumer_group.rs:253-277 | only the owner in the current generation commits, and only forward |
| Cursors.FindFrontierOffset | crates/server/src/consumer_cursor.rs:364-369 | the first entry of an ascending frontier at or above the commit point is the least one |
| Cursors.FindMatchingOffset | crates/server/src/consumer_cursor.rs:371-386 | the scan finds the least matching retained offset at or above the commit point |
| Cursors.FindEarliest | crates/server/src/consumer_cursor.rs:286-294 | the scan finds the earliest retained offset of the partition |
| Cursors.ScanFirst | crates/server/src/consumer_cursor.rs:73-86 | the scan returns the deliverable message with the least stream, partition and offset, or none if there is none |
| Cursors.PopCommitted | crates/server/src/consumer_cursor.rs:104-111 | the loop drops entries from the front as long as they are committed or not retained |
| Cursors.FindDeliverable | crates/server/src/consumer_cursor.rs:112-120 | the least offset neither acknowledged nor leased, or none if there is none |
| Cursors.ConsumerCursorSet.constructor | crates/server/src/consumer_cursor.rs:59-63 | the given cursors and window, no frontier |
| Cursors.ConsumerCursorSet.AdvanceByScan | crates/server/src/consumer_cursor.rs:338-353 | the scanning loop computes the contiguous advance |
| Cursors.ConsumerCursorSet.AdvanceByFrontier | crates/server/src/consumer_cursor.rs:355-362 | the frontier loop computes the same advance over the frontier's offsets |
| Cursors.ConsumerCursorSet.AcknowledgeRecord | crates/server/src/consumer_cursor.rs:140-193 | already committed offsets are accepted, the window refuses, an offset that closes the gap always enters; nothing else changes |
| Cursors.ConsumerCursorSet.ApplyRetentionFloor | crates/server/src/consumer_cursor.rs:201-222 | the cursor is lifted to the floor, counts a gap and drops lower acknowledgements and entries; reports whether it moved |
| Cursors.ConsumerCursorSet.ObservePublishedRecord | crates/server/src/consumer_cursor.rs:224-242 | only a located, matching record of a partition with a frontier is entered |
| Cursors.ConsumerCursorSet.Remove | crates/server/src/consumer_cursor.rs:244-248 | the offset leaves the partition's frontier only |
| Cursors.ConsumerCursorSet.EnsureAllFrontiers | crates/server/src/consumer_cursor.rs:250-273 | partitions without a frontier get the log's offsets, existing frontiers stay |
| Cursors.ConsumerCursorSet.ObserveAllRetention | crates/server/src/consumer_cursor.rs:285-305 | every cursor below its first retained offset is lifted to it |
| Cursors.ConsumerCursorSet.NextCandidate | crates/server/src/consumer_cursor.rs:66-87 | after observing retention, the first deliverable message over all partitions |
| Cursors.ConsumerCursorSet.NextIndexedCandidate | crates/server/src/consumer_cursor.rs:89-129 | through the indexes, the first deliverable message over all partitions; cursors unchanged, missing frontiers filled and every frontier popped |
| Cursors.ConsumerCursorSet.ConsiderPartition | crates/server/src/consumer_cursor.rs:100-127 | one partition's turn pops its frontier, keeps frontiers exact and keeps the best candidate so far |
| Cursors.ConsumerCursorSet.SearchAll | crates/server/src/consumer_cursor.rs:98-128 | the partitions one after the other: every frontier popped and the best candidate kept |
| Subjects.MatchesLoop | crates/protocol/src/subject.rs:34-47 | the two-iterator loop decides the reference match |
| Subjects.SubjectTrie.constructor | crates/protocol/src/subject.rs:62-68 | starts with no live pair |
| Subjects.SubjectTrie.Insert | crates/protocol/src/subject.rs:82-95 | reports prior absence of the pair, refuses invalid patterns, and makes the pair live |
| Subjects.SubjectTrie.Remove | crates/protocol/src/subject.rs:97-120 | reports prior presence and makes exactly that pair not live |
| Subjects.SubjectTrie.Matching | crates/protocol/src/subject.rs:122-130 | exactly the values with a live pattern that the reference matcher accepts, each once, in ascending order; nothing for an invalid subject |
| Subjects.SubjectTrie.MatchesAny | crates/protocol/src/subject.rs:132-137 | holds exactly when the subject is valid and some live pattern matches |
| Streams.ValidateDefinition | crates/server/src/stream.rs:134-175 | reports the first check a definition fails, in order |
| Streams.FirstDuplicate | crates/server/src/stream.rs:189-191 | comparing neighbours of the sorted list finds every duplicate name |
| Streams.FirstClash | crates/server/src/stream.rs:192-205 | the nested loops find an overlap between two streams exactly when there is one |
| Streams.FillBindings | crates/server/src/stream.rs:206-211 | the trie holds exactly the bindings, each under the index of its stream |
| Streams.NewCatalog | crates/server/src/stream.rs:184-213 | accepts exactly the unambiguous lists of valid definitions, and otherwise reports the first objection |
| SegmentCache.RemoteSegmentCache.constructor | crates/server/src/backup.rs:808-815 | starts empty |
| SegmentCache.RemoteSegmentCache.BeginGet | crates/server/src/backup.rs:818-835 | a hit, a wait on the load in flight, or a new load, with the counters |
| SegmentCache.RemoteSegmentCache.MakeRoom | crates/server/src/backup.rs:844-852 | the loop makes room, terminates and never reaches its fallback break |
| SegmentCache.RemoteSegmentCache.FinishGet | crates/server/src/backup.rs:840-857 | the load is over; a result that fits is cached last in the queue after eviction |
| Numerals.CountDigits | crates/protocol/src/frames.rs:301-309 | the digit loop counts the characters of the printed number |
| Numerals.PrintHex | crates/protocol/src/frames.rs:291-299 | the loop prints two lower-case digits a byte |
| Frames.PrintAck | crates/protocol/src/frames.rs:87-110 | cutting the CRLF and extending gives the tokens in order, separated by single spaces, with one CRLF |
| Frames.PrintHeaders | crates/protocol/src/frames.rs:206-213 | the loop prints the version line, one line per header and an empty line |
| Frames.PrintDelivery | crates/protocol/src/frames.rs:190-227 | the protocol line announces the real lengths, then headers, payload and CRLF follow |
| FrameParser.ReadHeaderLines | crates/client/src/client/frame_parser.rs:595-605 | the loop pushes one trimmed pair per line up to the first empty line and fails on a line without colon |

## Left out

- Sockets, TLS, async runtimes, authentication, the command line, benchmarks and clients other than the frame reader: I/O or thin wrappers.
- Cryptography, CRC, SHA, serde encodings, file renames and fsync: a checksum is a number or a predicate, files are values, and I/O succeeds.
- OpenRaft, WAL replay, partition-log internals, redelivery and the route mesh: the partition log appears only as the ascending list of retained matching offsets.
- Materialized views, incremental backups, quotas, schedulers, batching, connectors, the schema registry and the simulation: they would add easier members only.
- Metadata.DurableState.ApplyCommand: of the replicated commands only bootstrap, expansion, leader update, reconfiguration and commit are modelled; consumers, groups, policy, publication and security references are not.
- Partition keys are pairs of stream and number instead of formatted strings, so keys that are not the canonical text of a pair do not occur.
- ReplicationSafety.AcknowledgedRecordsSurvive: proved for runs that keep `Disciplined`; the `Iff` lemmas beside it say for each operation exactly when the code keeps the log, and ReplicationWitnesses has losing runs for an append, a transfer and an election.
- ReplicationElections.MajorityAlwaysElects: proved for a fixed replica set, with accepted reassignments that name a leader passing the candidate check.
- MetadataSafety.OneLeaderPerEpoch: proved for runs whose commands satisfy `KeepsHistory`; StepForwardIff says that these are exactly the commands that move every assignment forward.
- MetadataSafety.LeaderIsActive: proved for commands that name usable assignments, because the code stores what they name.
- Replication progress and watermark queries are reads of fields and have no member of their own.
- TransactionRuns.CrashShowsAllOrNothing: a crash between the rename and the emptying of the journal in a checkpoint is not an event of a run, because there the code can repeat or fail; InterruptedCheckpointIff says exactly when. A journal entry is written whole.
- TransactionRuns.OutcomeIsFinal: its crashes keep the entries synced by finished calls, because a lost entry takes its effect with it; CrashShowsAllOrNothing has no such limit.
- TransactionRuns.HoldsWhatWasAccepted: the same.
- TransactionRuns.CommitReturnsWhatWasAccepted: the same.
- Byte counts of transactions and frames are unbounded; the saturation of usize arithmetic cannot be reached by real buffers.
- Trie nodes are values that the trie replaces along a path; updating child nodes in place and the sharing of references are not captured.
- Recomputing a cursor's starting offset, `delivered_offset` and the construction of a cursor set from the catalog: a run starts from any cursors.
- CursorDelivery.AtLeastOnce: publications of the partition carry growing offsets, and its retention floors lie within the log, as the partition log assigns them.
- CursorDelivery.UnsettledIsOffered: the same.
- SegmentCacheRuns.SingleFlight: a key is always requested with the same checksum, since a hit does not check it again; poisoned locks do not occur.
- Error texts: errors are kinds in all modules.
- Frames other than producer acknowledgements and durable deliveries; a key token whose digit pairs split a multi-byte character, on which the program panics, is an error here.
