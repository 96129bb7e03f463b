# ULPF pipeline: a verified model

A Dafny model of the log pipeline: collection (TCP framing, duplicate tracking, archive-first ingest),
the at-least-once streaming workers (parser, normalizer, retry, sink, and the batch-commit worker), the
mappings and the normalizer against the semantic validator, idempotent event storage, the CEF and RFC 5424
printers, and the in-memory visibility store. `dafny verify dfyconfig.toml` checks the whole project.

## What is proved

- **Nothing is lost.** `PipelineWorld` is one state machine over partition logs, committed offsets and any
  number of consumer-group members of every role, with polls, holds, releases, delivery failures, rebalances,
  crashes and restarts in any order. In every reachable state each raw record has a descendant that is
  stored, quarantined, dead-lettered, or at an offset that is not committed yet. `EndToEnd` follows it into the
  tables that the store's own runs fill. Work per event is bounded,
  committed offsets never go back, and held retry records stay put until they are due. Nor does a run ever get
  stuck: from each of these states every raw event can still be brought to a table or to the dead letters, unless
  a processor raises on one of its records whatever it observes (`PipelineProgress`).
- **Effectively once.** Two normalizations of one parsed event differ in `normalized_at` only. Any run of the
  sink, with failing and ambiguous inserts, redelivery and background merges, that commits the whole topic
  leaves the same logical rows as one delivery of each event, up to `normalized_at`.
- **Batched commits** of `files/worker.py` are safe in every run in which the safety net does not fail, and never
  happen after a delivery error. When the safety net itself raises, the finally block can commit a message
  that has no output; the exact condition and a concrete run are given.
- **Framing** of TCP depends on the byte stream alone, whatever the chunking, and agrees with the file
  splitter exactly when the lines fit.
- **Duplicate tracking** is characterised on traces, and ingest accounting balances in every interleaving.
- **The builder against the judge**: for every record, the validator's verdict on the event the normalizer builds
  is decided exactly by three conditions on that record. Over what the shipped packs hand over, it objects to two
  kinds of Suricata records and no others; both are shown by example.
- **Every answer is pinned down** apart from the function that gives it: when the engine returns what a Source
  Pack built and what it returns otherwise, when a fault is retried and for when, which time, quality, action and
  severity an event reports, which row stores it, and what a search finds (`Decisions`, `MappingFacts`,
  `NormalizedFacts`).
- **Printing is uniquely decodable**: every field of a CEF extension and every RFC 5424 parameter can be read
  back. What this repository's own CEF parser makes of a header is stated for every header: it survives exactly
  when it holds no backslash, CR or LF.

## How the source is represented

Classes with mutable state are classes here (`Producer`, `RetryKafkaWorker`, `Worker`, `BoundedHashCache`,
`CollectionPipeline`, `AnalyticalVisibilityStore`, ...). Their methods are proved equal to functions on values,
and the properties of whole runs are proved of those functions. Foreign libraries (SHA-256, the JSON and
contract codecs, `ipaddress`, ISO dates, `str`, `int`, `lower`, JSON Schema) are records of functions that
every theorem quantifies over, with the few laws it needs in a `Lawful` predicate. Clock readings, broker
answers, the outcome of a Source Pack and the timing of delivery callbacks are parameters. Times are integers
in microseconds, and those in UTC lie in the years 1 to 9999. Threads of the collector interleave between any two lock-protected steps.

Assumptions: an assignment delivers consecutive offsets from the committed one, to one owner at a time;
a flush that reports no error has landed its record (`Honest`, the meaning of acks=all); pausing is forgotten
when a partition is revoked. `StageLaws.LawsCanBeMet` shows that all laws hold together of some libraries, with
the modelled normalizer and store in place; for that, `Numbering` gives every record a number of its own.

## What the code does that one might not expect

- `ParsingEngine.process` catches every exception (`core/engine.py:74-86`), so the parser retries only
  through its `forced_error` argument. Its own identity check does not look at `parsed.event_id`; that a record
  cannot carry another id is due to the checks its constructor runs (`src/contracts/parsed_event.py`,
  `src/contracts/raw_event.py`). The model has them raise inside the Source Pack, as they do.
- Only a transient error of the normalizer is routed to a retry. Any other exception ends the worker with the
  input uncommitted, and the same record ends it again after a restart (`PoisonIsNeverPassed`).
  `NormalizeRaisesIff` and `AcceptedRaisesIff` say which records these are; nothing is lost, but the partition waits.
- The Suricata pack accepts a time that falls before year 1 in UTC and an alert whose severity is a list; on
  both the normalizer raises (`EarlyTimeRaises`, `ListSeverityRaises`).
- A retry record whose deadline is rejected is dead-lettered under a digest of its payload rather than its
  event id (`src/streaming/workers.py:22-32`, `RejectedDeadlineHidesId`, `WordyDeadlineHidesId`).
- If both the processing of a message and the safety net at `files/worker.py:556-566` raise, the commit in
  the finally block can cover a message without output (`EscapeLosesInputIff`, `EscapeCanLoseInput`).
- The Suricata pack does not look inside an alert. One with an unlisted severity is a success, is labelled
  `unknown` without a warning (`src/normalization/mappings/suricata.py:119-121`), and fails validation unless
  something else casts doubt on it (`UnlistedSeverityIsObjected`).
- The Suricata pack keeps the fields of a record it rejects, so a flow without addresses can still be
  categorized as network (`RejectedFlowIsObjected`).
- A Source Pack whose namespace is `ulpf` loses its extracted fields to the normalizer's provenance, against
  the comment at `src/normalization/normalizer.py:93-95` (`ExtractedFieldsKeptIff`, `UlpfPackLosesFields`).
- The CEF parser undoes only the escaped pipe, so backslashes come back doubled and line breaks spelled out
  (`HeaderIsReread`, `PathIsDoubled`); a value that ends in a backslash has the whole line rejected
  (`TrailingBackslashRejects`, `DirectoryIsRejected`).
- The RFC 5424 printer cuts the MSGID at 48 characters where the standard allows 32 (`LineConformsIff`,
  `LongTypeBreaksLimit`).
- A line too long for TCP ends the connection, while the file splitter goes on (`TcpAgreesWithFileIff`,
  `LongLineEndsConnection`).
- `AnalyticalVisibilityStore.search` with a limit below one still returns one event
  (`src/pipeline/storage.py:151-153`, `LimitZeroReturnsOne`).

## Model

| member | source | states |
|---|---|---|
| Processors.EngineContract | core/engine.py:64-86 | whatever a Source Pack builds, returns or raises, the engine's event meets the parsed contract and carries the id and hash of the envelope it was given |
| Decisions.EngineReturnsIff | core/engine.py:64-73 | the engine returns the Source Pack's own record, untouched, if and only if the Source Pack returned a contract-valid record that names the envelope's id and hash |
| Decisions.EngineExplains | core/engine.py:62-124 | any other outcome gives a record of no fields with one issue that says why: unrecognized when no Source Pack matched or detection raised, failed otherwise |
| Decisions.FailedNamesPack | core/engine.py:88-124 | a failed record names the Source Pack that failed, with its own parser and version where it declares one |
| Decisions.ParserPublishes | src/streaming/processor.py:136-175 | without a fault, what reaches the parsed topic decodes to the engine's record, a good parse to the Source Pack's own; nothing is published exactly when that record cannot be written |
| Decisions.NormalizerPublishes | src/streaming/processor.py:195-237 | without a fault, what reaches the normalized topic decodes to what the normalizer makes of the record; nothing is published exactly when that raises |
| Decisions.RetriedIff | src/streaming/processor.py:56-79 | a transient fault on a readable record is retried if and only if its attempt is below the limit of its stage, and is a dead letter otherwise |
| Decisions.RetryIsScheduled | src/streaming/processor.py:80-101 | a retry names the stage that failed and the next attempt, and its deadline reads as the floor of 1000 (now + min(base 2^attempt, cap)) |
| Decisions.DelayDoubles | src/streaming/processor.py:80 | the delay starts at the base and doubles until it reaches the cap |
| Decisions.AttemptIs | src/streaming/kafka.py:64-69 | the attempt header counts when it is a number that is not negative, and stands for zero otherwise |
| Decisions.FifthFailureIsRetried | src/streaming/processor.py:56-79 | under the default limit a fault at attempt 4 is retried and one at attempt 5 is not |
| Decisions.UnreadableIsDeadLettered | src/streaming/processor.py:103-124 | a payload that breaks the contract of its stage is a dead letter under its digest, fault or not |
| Decisions.UnroutableIsDeadLettered | src/streaming/workers.py:16-53 | so is a retry record without a stage or with a rejected deadline |
| Decisions.AcceptedIff | src/streaming/retry.py:44-52 | a deadline is accepted if and only if it is a number, not negative and at most 1805 seconds ahead of the clock |
| Processors.RetryDecreasesRank | src/streaming/processor.py:56-101 | a retry or dead letter has strictly fewer processing steps left than the record it came from; Decisions.RetriedIff says which of the two it is |
| Processors.DecisionDecreasesRank | src/streaming/processor.py:136-237 | every decision of every role, on any record, lowers a measure of attempts left and stages to pass, whatever fails |
| Processors.DecisionCountsAttempts | src/streaming/processor.py:80-101 | a retry raises the attempt by one and stays within the limit; outputs of both stages carry the attempt on unchanged |
| Processors.DecisionKeepsIdentity | src/streaming/processor.py:136-237 | a record about an event id and raw hash leads only to a record about the same id and hash, keyed by that id unless the retry deadline was rejected |
| Processors.RejectedDeadlineHidesId | src/streaming/retry.py:44-52 | a retry record whose deadline fails the horizon test is dead-lettered under a digest, which is its event id only by coincidence |
| Processors.WordyDeadlineHidesId | src/streaming/retry.py:44-52 | a deadline that reads `soon`, which fails at every clock reading |
| Processors.FailureKeepsBytes | src/streaming/processor.py:56-124 | retry and dead-letter payloads are byte-equal to what was consumed |
| Processors.BackoffMonotoneAndBounded | src/streaming/processor.py:80-84 | the delay is nondecreasing in the attempt and lies between min(base, cap) and cap |
| Processors.BackoffFitsHorizon | src/streaming/retry.py:44-52 | with the default cap, no deadline the policy emits is rejected by the retry worker if its clock lags by at most five seconds |
| RetryWorker.DecodeHeaders | src/streaming/kafka.py:50-62 | decodes the wire headers to the dictionary of last decodable values |
| RetryWorker.DecodedIsLastDecodable | src/streaming/kafka.py:56-61 | a name is present exactly when some value of it decodes, and then has the last one that does |
| RetryWorker.HeadersRoundTrip | src/streaming/kafka.py:29-62 | the headers a decision writes are the headers the next stage reads, in any order |
| RetryWorker.CanonicalKafkaWorker.ProcessOne | src/streaming/kafka.py:18-48 | produces the one decision, flushes, commits only after a clean flush; an exception of the processor leaves without producing or committing |
| RetryWorker.RetryKafkaWorker.ProcessOne | src/streaming/retry.py:35-58 | fails closed on a paused partition, dead-letters invalid metadata, holds a record that is not due, processes one that is |
| RetryWorker.RetryKafkaWorker.ProcessDue | src/streaming/retry.py:60-68 | releases held records in the order of a snapshot, stopping at the first output that is not durable |
| RetryWorker.RetryKafkaWorker.OnRevoke | src/streaming/retry.py:70-72 | forgets exactly the held records of the revoked partitions |
| RetryWorker.RetryKafkaWorker.Run | src/streaming/run.py:132-144 | the polling loop, with partitions revoked inside polls, stops at the first output that is not durable or exception |
| RetryWorker.DueReleasesExactly | src/streaming/retry.py:60-68 | a held record leaves exactly when its clock reading has reached its deadline; all else is held unchanged |
| RetryWorker.DueLeavesOnlyLater | src/streaming/retry.py:60-68 | after a completed pass every remaining entry was due later than the starting clock |
| RetryWorker.LoopAnswered | src/streaming/run.py:132-144 | over a whole run of the retry role, revocations included, no offset is committed past a record without an output |
| PipelineWorld.NextKeepsInv | src/streaming/run.py:131-146 | every step of every role keeps: committed records answered faithfully, one owner per partition, the hold protocol |
| PipelineWorld.RunsKeepInv | src/streaming/run.py:131-146 | the invariant holds in every state of every run, under any interleaving, failure, rebalance and crash |
| PipelineSafety.CommittedIsAnswered | src/streaming/run.py:131-146 | every input offset below a committed offset has an output record, equal in every field to a decision taken on it |
| PipelineSafety.NothingLost | src/streaming/run.py:131-146 | from any record a bounded number of steps leads to one stored, dead-lettered or still owed to a consumer |
| PipelineSafety.NoRawEventLost | src/streaming/run.py:131-146 | at every moment of every run each raw record has a descendant in a table, in the dead-letter topic or not yet committed |
| PipelineSafety.AttemptCountsRetries | src/streaming/processor.py:64-100 | along every lineage the attempt header equals the number of retries made, in both stages together |
| PipelineSafety.BoundedWork | src/streaming/processor.py:64-100 | at most the larger limit of retries in all, and a normalized event or dead letter within two steps more |
| PipelineSafety.IdentityOverRuns | core/engine.py:64-86 | every descendant of a valid raw envelope, on any topic and whatever the Source Packs do, is about that envelope's id and hash, and keyed by the id unless its retry deadline failed the horizon test |
| PipelineSafety.NextIsMonotone | src/streaming/kafka.py:44-48 | no step removes or changes a record or moves a committed offset back |
| PipelineSafety.RunsAreMonotone | src/streaming/kafka.py:44-48 | the same between any two moments of a run, across crashes and rebalances |
| PipelineSafety.HeldUntilDue | src/streaming/retry.py:54-72 | a held record goes away only by its own release at or after its deadline, by revocation, or with its worker; no other step changes it or commits past it |
| PipelineSafety.HoldProtocol | src/streaming/retry.py:35-72 | in every reachable state the pending keys are exactly the paused partitions and each holds its partition's first uncommitted record |
| PipelineProgress.FirstCanProceed | src/streaming/run.py:131-146 | in every state that keeps the invariant, the first uncommitted record of any partition can be answered by further steps, with the decision its processor takes and nothing else changed in the logs |
| PipelineProgress.PoisonIsNeverPassed | src/streaming/kafka.py:18-48 | a record on which its processor raises whatever it observes is passed by no continuation of any run |
| PipelineProgress.CanBeSettled | src/streaming/run.py:131-146 | if no record is one on which its processor raises, every record can be brought to a table or to the dead letters, within its measure of steps |
| PipelineProgress.RawEventCanBeSettled | src/streaming/run.py:131-146 | the same for each raw event at every moment of every run: no run ends in a state from which it cannot get on |
| BatchWorker.CommitIffAllAcked | files/worker.py:499-534 | a commit happens exactly when it is due, something is uncommitted, and every output produced so far is acknowledged without error; it covers all polled input |
| BatchWorker.CommitKeepsSafe | files/worker.py:509-534 | a commit keeps committed input behind acknowledged output |
| BatchWorker.LoopIsSafe | files/worker.py:537-570 | at every moment of every run in which the safety net does not fail, whatever the callbacks' timing and whichever poll, commit or metrics call raises, committed input is behind acknowledged output |
| BatchWorker.RunIsSafe | files/worker.py:537-579 | the same after the forced commit of the finally block, which may raise too |
| BatchWorker.NoCommitAfterError | files/worker.py:521-530 | after one delivery error nothing is committed again, the forced commit included |
| BatchWorker.EscapeLosesInputIff | files/worker.py:554-579 | when the safety net raises, committed input outruns acknowledged output exactly under the stated condition |
| BatchWorker.EscapeCanLoseInput | files/worker.py:554-579 | a concrete run of two messages that commits one without output |
| BatchWorker.Worker.OnDelivery | files/worker.py:388-393 | settles one output and records an error, once per callback |
| BatchWorker.Worker.ProduceOutput | files/worker.py:395-401 | adds one in-flight output and serves the callbacks that are ready |
| BatchWorker.Worker.CommitMaybe | files/worker.py:499-534 | flushes, then withholds, stops or commits as the specification says, and lets an exception of the commit call out |
| BatchWorker.Worker.FlushMetricsMaybe | files/worker.py:482-496 | produces a metrics record when the interval has passed |
| BatchWorker.Worker.Run | files/worker.py:537-579 | the loop and its finally block follow the specification for every script of events |
| TcpFraming.ScanResumes | src/collection/tcp_collector.py:77-87 | scanning can be interrupted anywhere: the waiting bytes and the rest scan as the whole |
| TcpFraming.ScanStopIsFinal | src/collection/tcp_collector.py:83-87 | once a frame outgrows the limit later bytes change nothing |
| TcpFraming.ScanBounds | src/collection/tcp_collector.py:55-87 | the waiting buffer has no LF and at most max bytes, frames ended by LF fit, and a stop has a last frame of max + 1 bytes |
| TcpFraming.ScanConserves | src/collection/tcp_collector.py:78-82 | rejoining the frames with LF plus the waiting bytes gives every byte received |
| TcpFraming.TcpAgreesWithFileIff | src/collection/file_collector.py:13-21 | the connection's frames are the file's lines if and only if every line but the last fits and the last exceeds the limit by at most one |
| TcpFraming.LongLineEndsConnection | src/collection/tcp_collector.py:83-84 | two bytes under a limit of one: the connection ends and the file splitter goes on |
| TcpFraming.HandleConnection | src/collection/tcp_collector.py:46-87 | for every split of the stream and every timeout, the emitted frames are one function of the bytes received |
| TcpFraming.DrainFrames | src/collection/tcp_collector.py:78-84 | empties the buffer of frames as one scan would; the oversized return inside it is unreachable |
| TcpFraming.Replay | src/collection/file_collector.py:13-21 | yields the LF-split lines, each without its LF |
| DuplicateCache.EntriesAreNewest | src/collection/dedup.py:17-26 | the entries are always the most recent distinct hashes in last-use order |
| DuplicateCache.HitIffSeenWithin | src/collection/dedup.py:20-26 | a hash is held exactly when it occurred and fewer than the capacity's number of distinct hashes were seen since |
| DuplicateCache.LargerCacheHoldsMore | src/collection/dedup.py:10-26 | on every trace a smaller cache holds the newest part of a larger one |
| DuplicateCache.BoundedHashCache.CheckAndAdd | src/collection/dedup.py:17-26 | answers whether the hash was seen within the capacity, and records it as the newest |
| DuplicateCache.BoundedHashCache.Size | src/collection/dedup.py:28-30 | the number of entries, never above the capacity |
| Ingest.AccountsBalance | src/collection/pipeline.py:75-172 | in every interleaving received = accepted + rejected + in progress and duplicates <= accepted <= published |
| Ingest.PublishedWasArchived | src/collection/pipeline.py:137-170 | every published envelope was archived earlier, at most once each, and acceptance follows publication |
| Ingest.DuplicatesAreRight | src/collection/pipeline.py:131-134 | in every interleaving a call is flagged duplicate exactly when the cache had seen the hash within its capacity |
| Ingest.CallsCanRunAlone | src/collection/pipeline.py:75-172 | in every state of every interleaving a new call can begin and, if nothing interrupts it, does exactly what the call alone does |
| Ingest.IngestIs | src/collection/pipeline.py:94-172 | acceptance, reason, counters, archive, publication and the duplicate flag of one call, each decided by its size, its faults and the earlier hashes |
| Ingest.CollectionPipeline.Ingest | src/collection/pipeline.py:94-172 | one uninterrupted call takes exactly the steps of the interleaving model |
| Ingest.CollectionPipeline.Reject | src/collection/pipeline.py:75-92 | the same for a framing rejection |
| SemanticValidation.NamespaceIffWords | src/validation/semantic_validation.py:9 | the namespace grammar accepts exactly lower-case words joined by single underscores that start with a letter |
| SemanticValidation.LettersAre | src/validation/semantic_validation.py:9 | the alphabet of the namespace grammar, written out |
| SemanticValidation.SilentIffConsistent | src/validation/semantic_validation.py:25-194 | there is no issue exactly when every cross-field rule holds |
| SemanticValidation.TimesJudgedIff | src/validation/semantic_validation.py:16-42 | three times in UTC are in order exactly when observed <= ingested <= normalized |
| SemanticValidation.OneBadTimeIsNotJudged | src/validation/semantic_validation.py:16-42 | one time that cannot be read leaves the order unjudged |
| SemanticValidation.ValidateSemantics | src/validation/semantic_validation.py:25-194 | the chain of branches collects exactly the issues of the broken rules |
| Mappings.SlugIsWords | src/normalization/mappings/common.py:49-54 | collapsing and stripping yields words joined by single underscores |
| Mappings.SlugOrIsNamespace | src/normalization/normalizer.py:29-33 | the derived namespace meets the validator's grammar if its fallback does |
| MappingFacts.SlugJoinsRuns | src/normalization/mappings/common.py:49-51 | a slug is the runs of letters and digits of its text, in order, joined by single underscores |
| MappingFacts.EmptyValuesAre | src/normalization/mappings/common.py:50 | what `or` replaces by a fallback: null, false, zero and empty values, and nothing else |
| MappingFacts.EventTypeIs | src/normalization/mappings/common.py:49-54 | the event type is the slug of the trimmed lower-case text, or the fallback if that is empty or starts with a digit |
| Mappings.BuildEndpoint | src/normalization/mappings/common.py:72-89 | the endpoint holds exactly the valid address, port and interface, and is absent when there is none |
| MappingFacts.EndpointReports | src/normalization/mappings/common.py:32-89 | address, port and interface are reported exactly when readable, in range and named |
| MappingFacts.SyslogScoreIs | src/normalization/mappings/common.py:9-18 | the codes 0 to 7 score 10, 9, 8, 7, 5, 4, 2, 0, each with the label the validator asks for |
| MappingFacts.FortinetScoreIs | src/normalization/mappings/common.py:20-29 | the eight level names score like the eight codes, and no other name scores |
| MappingFacts.SyslogSeverityIs | src/normalization/mappings/common.py:57-69 | a code in the table gives its score and no warning; any other is unknown with one warning |
| Mappings.ClassifyFortinet | src/normalization/mappings/fortinet_fortigate.py:51-67 | the login of a named user is an authentication with the outcome of its status; any other event fails exactly when its action is a denial, never succeeds then, and succeeds exactly when it is an allowance |
| MappingFacts.FortinetActionIs | src/normalization/mappings/fortinet_fortigate.py:51 | the original action is the action field, the status field, or unknown, whichever first says something |
| MappingFacts.FortinetTransportIs | src/normalization/mappings/fortinet_fortigate.py:8-37 | the protocol numbers 1, 6, 17, 47 and 58 are icmp, tcp, udp, gre and icmpv6, and no others |
| Mappings.MapFortinet | src/normalization/mappings/fortinet_fortigate.py:20-146 | the stepwise mapping equals its specification for every field map |
| Mappings.ClassifyCisco | src/normalization/mappings/cisco_asa.py:41-50 | a text that mentions a denial is denied whatever else it mentions; only then is it allowed, only then a disconnection; exactly the last two succeed |
| MappingFacts.NamedTransportIs | src/normalization/mappings/cisco_asa.py:28-30 | a transport is named only if it is one of the five known ones |
| Mappings.MapCisco | src/normalization/mappings/cisco_asa.py:14-99 | the stepwise mapping equals its specification for every field map |
| Mappings.MapSuricata | src/normalization/mappings/suricata.py:27-103 | the stepwise mapping equals its specification for every field map, and raises exactly on an alert that is no object or whose severity cannot be a key |
| Mappings.BuildThreat | src/normalization/mappings/suricata.py:125-139 | the stepwise threat section equals its specification |
| Mappings.BuildNetwork | src/normalization/mappings/suricata.py:141-162 | the stepwise network section equals its specification |
| Mappings.BuildHttp | src/normalization/mappings/suricata.py:164-185 | the stepwise HTTP section equals its specification |
| Mappings.MapLinux | src/normalization/mappings/generic_linux_syslog.py:14-43 | the stepwise mapping of Linux syslog equals its specification |
| MappingFacts.SuricataFamilyIs | src/normalization/mappings/suricata.py:27-103 | the family is the lower-case event type, or unknown |
| MappingFacts.SuricataActionIs | src/normalization/mappings/suricata.py:105-112 | an alert is blocked and fails if and only if its lower-case action is `blocked`, and is otherwise detected and succeeds; any other family connects and succeeds |
| MappingFacts.SuricataSeverityIs | src/normalization/mappings/suricata.py:114-132 | alert severities 1, 2 and 3 score 8, 5 and 2 with confidence 0.9, 0.7 and 0.5, any other number is unknown with 0.3, and what is no alert is informational |
| MappingFacts.SuricataThreatIs | src/normalization/mappings/suricata.py:125-139 | a threat bears the signature, its number and the slug of its category |
| MappingFacts.SuricataNetworkIs | src/normalization/mappings/suricata.py:141-150 | direction, transport and application protocol of a record, and no keys but these and the totals |
| MappingFacts.SuricataTotalsAre | src/normalization/mappings/suricata.py:151-162 | a total is given exactly when both directions are counted, and is then their sum |
| MappingFacts.SuricataMessageIs | src/normalization/mappings/suricata.py:187-201 | the message of each family, and none for a record without a body of its family |
| MappingFacts.SuricataCategoryIs | src/normalization/mappings/suricata.py:27-103 | alerts are intrusions, HTTP records are web, and flows and DNS records are network events exactly between two ends |
| MappingFacts.EachPackHasItsMapping | src/normalization/registry.py:30-33 | every shipped Source Pack is mapped by the mapping of its name |
| MappingFacts.UnmappedSaysSo | src/normalization/normalizer.py:195-208 | the events of any other Source Pack are unknown in every section and say that no mapping is registered |
| Normalizer.CiscoIsWellMapped | src/normalization/mappings/cisco_asa.py:14-99 | sections agree with the category, action with outcome, severity with label; a network event has both addresses; an unknown severity warns |
| Normalizer.FortinetIsWellMapped | src/normalization/mappings/fortinet_fortigate.py:20-146 | the same, and the authentication result equals the action outcome |
| Normalizer.SuricataIsWellMapped | src/normalization/mappings/suricata.py:27-103 | where the mapping does not raise: the same, with the exact conditions for a network category and for an unknown severity label |
| Normalizer.PackNamespaceHolds | src/normalization/normalizer.py:29-33 | the extension namespace of any pack id meets the grammar |
| Normalizer.NotesIff | src/normalization/normalizer.py:60-84 | whether normalizing warns of a record, and whether it finds it incomplete, is decided by the record, by conditions written out for each mapping |
| Normalizer.NormalizeRaisesIff | src/normalization/normalizer.py:56-84 | normalizing raises exactly on a time of parsing without a zone or beyond the last instant, and, of Suricata, on alerts that are no object or have an unhashable severity and on times without a zone or before year 1 in UTC |
| Normalizer.TimesHold | src/normalization/normalizer.py:80-84 | observed <= ingested <= normalized in every assembled event |
| NormalizedFacts.EventTimesAre | src/normalization/normalizer.py:80-108 | when normalizing does not raise, observed_at is the Suricata timestamp if that is not later than ingestion, and the time of ingestion in every other case; normalized_at is the latest of clock, parse and ingestion |
| NormalizedFacts.QualityIs | src/normalization/normalizer.py:161-181 | the status is invalid exactly when the parse failed or the validator objects, and unknown, partial or valid exactly under the stated conditions on the record |
| NormalizedFacts.ConfidenceIs | src/normalization/normalizer.py:183-193 | the confidence is 0 exactly for a failed or unrecognized parse, 1 exactly for an undoubted complete success, and one half otherwise |
| NormalizedFacts.TraceIs | src/normalization/normalizer.py:112-148 | the trace names the raw event, Source Pack and parser, versions only when semantic, and embeds the raw text exactly when it is text |
| NormalizedFacts.SectionsAre | src/normalization/normalizer.py:86-160 | every other section is that of the mapping, with the vendor and product of the parse |
| NormalizedFacts.ProvenanceIs | src/normalization/normalizer.py:127-137 | the normalizer's own namespace holds the mapping used and the versions received |
| NormalizedFacts.MissingAreSorted | src/normalization/normalizer.py:124 | the missing fields are listed in ascending order, each once |
| NormalizedFacts.LessEqIsOrder | src/normalization/normalizer.py:124 | that order is the one of text: prefixes first, then the first difference |
| NormalizedFacts.WarningsAreUnique | src/normalization/normalizer.py:125 | the warnings are listed once each, in the order of their first occurrence |
| Normalizer.RawHolds | src/normalization/normalizer.py:139-148 | embedded raw text hashes to the recorded raw hash |
| Normalizer.AssembledIsConsistentIff | src/normalization/normalizer.py:56-160 | for every record on which normalizing does not raise, the validator has no objection to the assembled event if and only if three conditions on the record hold: a Suricata flow has its addresses, an unlisted alert severity is doubted for another reason, a partial parse is doubted or incomplete |
| Normalizer.BuilderSatisfiesJudge | src/normalization/normalizer.py:56-160 | if the caller keeps to Suricata records that were accepted, whose time is in the range of UTC, and to alerts of severity 1, 2 or 3, whatever the shipped packs hand over normalizes without raising to an event without semantic issues |
| Normalizer.ShippedIsConsistentIff | source_packs/suricata/pack.py:38-137 | over everything the shipped packs hand over, the validator objects exactly to accepted Suricata alerts of an unlisted, otherwise undoubted severity and to rejected flows between two ends of which one has no address |
| Normalizer.AcceptedRaisesIff | source_packs/suricata/pack.py:70-137 | normalizing an accepted Suricata record raises exactly when its alert's severity is a list or an object or its time lies before year 1 in UTC |
| Normalizer.ListSeverityRaises | src/normalization/mappings/suricata.py:118-119 | an accepted alert whose severity is a list, on which normalizing raises |
| Normalizer.EarlyTimeRaises | src/normalization/normalizer.py:19-22 | an accepted record of 0001-01-01T00:00:00+01:00, on which normalizing raises |
| Normalizer.UnlistedSeverityIsObjected | src/normalization/mappings/suricata.py:115-123 | an accepted alert of severity 4, to whose event the validator objects |
| Normalizer.RejectedFlowIsObjected | source_packs/suricata/pack.py:97-137 | a rejected flow with ports and without addresses, whose finished event still breaks the endpoint rule |
| Normalizer.NormalizedIsConsistentIff | src/normalization/normalizer.py:161-167 | after self-validation the only objection left can be the missing address of a Suricata flow, and it is left exactly then |
| Normalizer.NormalizedKeepsIdentity | src/normalization/normalizer.py:86-120 | every normalized event carries the parsed event's id and its raw hash |
| Normalizer.ExtractedFieldsKeptIff | src/normalization/normalizer.py:92-138 | the extracted fields are kept whole exactly when the Source Pack's namespace is not the normalizer's own |
| Normalizer.UlpfPackLosesFields | src/normalization/normalizer.py:127-137 | a Source Pack named ulpf, whose fields the event does not hold |
| Normalizer.NormalizeEvent | src/normalization/normalizer.py:56-167 | the stepwise normalizer, with the exceptions of its mapping and of its times, equals the function the theorems are about |
| Normalizer.NormalizingTwiceDiffersInTimeOnly | src/normalization/normalizer.py:80-138 | normalizing one parsed event at two clock readings, the parse stamped alike, raises both times or differs in `normalized_at` only |
| Normalizer.SameFitness | src/normalization/normalizer.py:161-167 | both normalizations are fit for the events table or neither is |
| EventStore.SplitIsPartition | src/storage/clickhouse.py:107-119 | a batch splits into the projections of exactly the fit events and the quarantine rows of exactly the others |
| EventStore.QuarantinedIs | src/storage/clickhouse.py:90-98 | a quarantine row keeps id and hash as far as the event has them, the whole event, and the codes of its issues |
| EventStore.BatchAccounts | src/storage/clickhouse.py:121-154 | valid + quarantined + failed = batch size, a failure is reported with an error, and what is reported written is in its table |
| EventStore.ClickHouseEventStore.WriteBatch | src/storage/clickhouse.py:107-154 | writes the split rows, each insert independently of the other; a raising projection writes nothing |
| EventStore.ClickHouseEventStore.QuarantinePayload | src/storage/clickhouse.py:156-174 | adds one quarantine row for undecodable bytes and reports whether it was written |
| EventStore.ClickHouseSinkProcessor.Process | src/storage/worker.py:25-54 | acknowledges exactly when the one insert of the payload's row succeeded and otherwise asks for a retry; a value that cannot be loaded or projected raises and stores nothing |
| EffectivelyOnce.FinalIsLatest | deploy/clickhouse/init/001_events.sql:29-31 | a key is seen exactly when some row has it, as the row that no newer version hides |
| EffectivelyOnce.MergeKeepsFinal | deploy/clickhouse/init/001_events.sql:29-31 | dropping a superseded row is invisible to queries |
| EffectivelyOnce.CoversShowTheSame | deploy/clickhouse/init/001_events.sql:29-31 | tables with the same rows up to time show the same logical rows, whatever the order and multiplicity |
| EffectivelyOnce.NormalizedHasRow | src/storage/clickhouse.py:39-74 | every normalized event projects to a row, whose key depends on the parsed event only |
| EffectivelyOnce.RowShowsMapping | src/storage/clickhouse.py:39-74 | the searchable columns show the parsed event and its mapping, and the JSON column is the whole event |
| EffectivelyOnce.RowShowsEndpoints | src/storage/clickhouse.py:48-65 | the address and port columns are those of the mapped source and destination |
| NormalizedFacts.RowTimesAre | src/storage/clickhouse.py:50-54 | the row of a published event is keyed by the reported time and its event id, and its normalization time is the latest of clock, parse and ingestion |
| EffectivelyOnce.RowShowsTrace | src/storage/clickhouse.py:66-72 | the trace, quality and ingestion columns are those of the event |
| EffectivelyOnce.UndatedIff | src/storage/clickhouse.py:39-74 | two rows are the same up to time exactly when all other columns agree and their events differ in normalized_at only |
| EffectivelyOnce.RedeliveredRowAgrees | src/storage/clickhouse.py:39-74 | two deliveries of one parsed event are stored alike and their rows differ in their time only |
| SinkRuns.KafkaSinkWorker.ProcessOne | src/streaming/run.py:37-46 | stores the value and commits its offset only if the store acknowledged it |
| SinkRuns.RunsKeepInv | src/streaming/run.py:37-46 | in every run over any number of partitions, whatever was committed is in the events table or quarantine, and the events table holds only rows of the topic |
| SinkRuns.RedeliveryIsHarmless | src/normalization/normalizer.py:80-138 | any redelivery, in any order, multiplicity and at any clock readings, shows the same logical rows |
| SinkRuns.EffectivelyOnceOverRuns | src/streaming/run.py:37-46 | after any run that commits all partitions of the topic, however it distributes and repeats what was published, queries see what one delivery of each event would have stored, up to time |
| SinkRuns.EveryEventCanBeRead | src/storage/clickhouse.py:217-222 | after such a run each fit event can be read back whole under its key, up to time |
| SinkRuns.CanBeDrained | src/streaming/run.py:37-46 | whatever has failed so far, a run can still commit the whole topic if every value can be stored |
| SinkRuns.UnstorableIsNeverPassed | src/streaming/run.py:37-46 | no run commits past a value that cannot be loaded or projected |
| EndToEnd.RawEventReachesTables | src/streaming/run.py:131-146 | at every moment, after any run of the store that accounts for the committed offsets, each raw event has a descendant that is a dead letter, still to be processed, or in the table the pipeline names, under its own event id and raw hash, within the larger limit plus two steps |
| StageLaws.NormalizedTopicIsLawful | src/streaming/processor.py:216-237 | the modelled normalizer satisfies the identity and codec laws the pipeline model assumes |
| Escaping.ChainIsSinglePass | src/integrations/cef.py:8-15 | chained replacement equals a per-character escape if it does so on single characters |
| Escaping.EscapeIsInjective | src/integrations/cef.py:8-15 | different values have different escapes |
| Escaping.ReadsBack | src/integrations/syslog.py:9-10 | escaped text holds no bare delimiter: a reader reaches exactly the delimiter that was written, with the exact value |
| Escaping.NoBareDelimiter | src/integrations/syslog.py:9-10 | without a written delimiter the reader finds none |
| Escaping.IntTextReadsBack | src/integrations/cef.py:25-55 | the digits of a printed number read back as that number |
| Cef.EscapeText | src/integrations/cef.py:8-15 | the sequence of replacements computes the single-pass escape |
| Cef.SerializeCef | src/integrations/cef.py:18-55 | the stepwise serializer yields the line the theorems are about |
| Cef.ExtensionReadsBack | src/integrations/cef.py:25-43 | every extension field, evidence identity included, can be read back with its exact value, and each address is under its own side's key exactly when present |
| Cef.ExtensionReports | src/integrations/cef.py:25-43 | the extension holds a key with a value if and only if the event gives that key that value |
| Cef.ParseCef | core/parsers/cef_parser.py:46-71 | the loop over the split parts yields the specified header and extension, or the specified error |
| Cef.SplitPassesValue | core/parsers/cef_parser.py:34-52 | the unescaped-pipe split does not separate inside an escaped value |
| Cef.ValueComesBackIff | core/parsers/cef_parser.py:60-61 | one header value comes back exactly when it holds no backslash, CR or LF |
| Cef.HeaderRoundTripsIff | core/parsers/cef_parser.py:46-61 | a serialized header survives the parser's split and unescape if and only if no value holds a backslash, CR or LF |
| Cef.HeaderIsReread | core/parsers/cef_parser.py:46-61 | if no header value ends in a backslash, each comes back with its backslashes doubled and its line breaks spelled out |
| Cef.TrailingBackslashRejects | core/parsers/cef_parser.py:49-54 | a value that ends in a backslash swallows the next separator, and the line is rejected with as many fields too few |
| Cef.PathIsDoubled | core/parsers/cef_parser.py:57-58 | the name C:\a comes back with two backslashes |
| Cef.DirectoryIsRejected | core/parsers/cef_parser.py:51-54 | the name C:\ has the line rejected |
| Syslog.ParamText | src/integrations/syslog.py:9-10 | the three replacements compute the single-pass escape of section 6.3.3 of RFC 5424 |
| Syslog.SerializeSyslog | src/integrations/syslog.py:18-42 | the stepwise serializer yields the line the theorems are about |
| Syslog.TokenIsPrintable | src/integrations/syslog.py:13-15 | a token is printable, non-empty and at most 48 characters |
| Syslog.TokenShows | src/integrations/syslog.py:13-15 | a token shows up to 48 characters as they are where printable and as underscores where not, and a dash for an empty text |
| Syslog.MessageShows | src/integrations/syslog.py:36 | the message is the event's, or its name, with spaces for line breaks |
| Syslog.PriorityIs | src/integrations/syslog.py:37 | the priority is 128 plus the severity kept between 0 and 7 |
| Syslog.ParamsTrace | src/integrations/syslog.py:25-34 | the structured data holds a name with a value if and only if the event gives it |
| Syslog.LineReadsBack | src/integrations/syslog.py:18-42 | a reader of section 6 of RFC 5424 recovers the header words, every parameter with its exact value, and the message |
| Syslog.LineConformsIff | src/integrations/syslog.py:13-15 | the line keeps the limits of section 6 of RFC 5424 if and only if the event type has at most 32 characters |
| Syslog.LongTypeBreaksLimit | src/integrations/syslog.py:40 | an event type of 33 characters, with which it does not |
| VisibilityStore.LookupIsLast | src/pipeline/storage.py:40-73 | a scan finds the event at the last position that has the key, if any has it |
| VisibilityStore.TextLookup | src/pipeline/storage.py:25-73 | where ids and hashes are text, a lookup finds the last event that carries the id or the hash, and nothing if none does |
| VisibilityStore.DictKeyIff | src/pipeline/storage.py:25-34 | two keys are one exactly when they are equal or stand for the same whole number |
| VisibilityStore.AnalyticalVisibilityStore.AddEvent | src/pipeline/storage.py:25-34 | for every event: lists it unless a section cannot be read, raises exactly when a section or key is bad, and keeps both indexes in agreement with a scan |
| VisibilityStore.AnalyticalVisibilityStore.GetById | src/pipeline/storage.py:40-42 | answers as a scan for the last event with the id; the empty id finds nothing |
| VisibilityStore.AnalyticalVisibilityStore.GetByRawHash | src/pipeline/storage.py:71-73 | the same for the raw hash |
| VisibilityStore.AnalyticalVisibilityStore.WriteBatch | src/pipeline/storage.py:49-69 | lists the batch up to the event that raises; otherwise counts each event as valid or quarantined exactly once |
| VisibilityStore.AnalyticalVisibilityStore.Clear | src/pipeline/storage.py:217-221 | empties the list and both indexes |
| VisibilityStore.AnalyticalVisibilityStore.Search | src/pipeline/storage.py:79-155 | returns the first max(limit, 1) matches of the reversed list, or raises if a filter raises before enough are found |
| VisibilityStore.AnalyticalVisibilityStore.Consider | src/pipeline/storage.py:95-149 | the chain of tests on one event gives the verdict the theorems are about |
| VisibilityStore.FoundIs | src/pipeline/storage.py:79-155 | every hit has its observed time in start <= t < end, each filtered leaf equal up to case and the text in one of six leaves; every event that meets these is a hit, unless the limit is reached |
| VisibilityStore.JudgedIff | src/pipeline/storage.py:95-149 | one event whose leaves are text matches if and only if it meets those conditions, and never raises |
| VisibilityStore.WindowIsHalfOpen | src/pipeline/storage.py:103-116 | an event observed at 15 is found between 10 and 20 and not from 20 on |
| VisibilityStore.LimitZeroReturnsOne | src/pipeline/storage.py:151-153 | a search with limit 0 that returns an event |
| VisibilityStore.HitsAreTheMatches | src/pipeline/storage.py:95-153 | the hits are exactly the matching events, each as often as it is stored |
| VisibilityStore.HitsAreNewestFirst | src/pipeline/storage.py:95 | matches among newer events come before those among older ones |
| VisibilityStore.HitIffAllPass | src/pipeline/storage.py:95-149 | an event matches exactly when it passes every filter |
| VisibilityStore.TallyCounts | src/pipeline/storage.py:172-196 | each bucket counts its events on top of its start value, and the buckets add up |
| VisibilityStore.ActionKeyIs | src/pipeline/storage.py:172-186 | an action counts as allowed, denied or detected exactly under the listed verbs, and as other otherwise |
| VisibilityStore.KeysAre | src/pipeline/storage.py:172-196 | the other buckets are the severity label, the quality status, and vendor and product, where a missing leaf is unknown |
| VisibilityStore.AnalyticalVisibilityStore.GetAggregations | src/pipeline/storage.py:157-215 | every bucket is the number of its events, each distribution sums to the event count, and the percentages are the rounded ones of the decided events, or zero without any |
| VisibilityStore.PercentagesShareOut | src/pipeline/storage.py:198-202 | the two percentages add up to one hundred, but for rounding, or are both zero |

## Left out

- Sockets, thread start-up, reverse DNS, signals, HTTP routes, client construction and logging.
- Pydantic, JSON Schema, Base64, SHA-256, `ipaddress`, ISO dates and JSON are foreign functions with laws.
- The regular expressions of the vendor parsers, the key-value parser of a CEF extension, pack manifests and
  module loading; a pack is an arbitrary outcome.
- SQL text, search on ClickHouse, OpenSearch, Parquet and the dashboard; only the table key and version rule
  are modelled. The quarantine table is not deduplicated, as in the source.
- Liveness: which steps happen is up to the broker and the clocks; safety, step counts, and that every record can
  still proceed are proved.
- The `OSError` exit of a TCP connection, which drops the buffer.
- Latency samples, byte counters of the batch worker and the `consumed_fields` of a mapping.
- The retry wait and header copying of `files/worker.py:404-466`: the batch worker's processing of a message
  is an outcome, handled with its produced outputs, caught, or escaped.
- Extracted values that are not JSON (dates, bytes, sets), which the normalizer converts to JSON first, and
  infinite floats, on which reading a port raises; the JSON of the parsed topic turns these into null.
- Which texts make writing a parsed event raise (lone surrogates), and which numbers make loading a value raise
  (too many digits): the codecs decide, and the models of the parser and the sink let the exception out.
- Explicit `null` leaves of a normalized event are not told apart from missing ones, and non-text leaves of a
  search or aggregation count as an exception even where the source would tolerate them.
- PipelineWorld.NextKeepsInv: record headers are dictionaries in this model; RetryWorker.HeadersRoundTrip
  justifies it for the headers that decisions write.
- Processors.EngineContract: a Source Pack that bypasses the constructor of the parsed record is not modelled;
  the one that copies a record (`source_packs/fortinet_fortigate/pack.py`) replaces its extracted fields only.
- SinkRuns.EffectivelyOnceOverRuns: assumes that an event id names one parsed event, and that the schema does
  not depend on the value of `normalized_at`.
- SemanticValidation.ValidateSemantics: issues are a set; the source also sorts them.
- EventStore.ClickHouseEventStore.WriteBatch: the order of error codes is that of a foreign function.
- Syslog.LineReadsBack: the timestamp is a parameter without spaces; line breaks inside parameter values are
  not escaped by the source and stay as they are.
- `AnalyticalVisibilityStore.list_events` and the lookups by SQL would only add easy members.
