# kafka-wire: a Dafny model

kafka-wire is a single-node broker that speaks the Kafka protocol. This project models the parts of it
that decide whether a record survives and is read back, and proves what they promise.

- **The partition log** (`Bytes`, `Record`, `Framing`, `Index`, `Offsets`, `Layout`, `Segments`, `LogModel`,
  `Fetching`, `Logs`, `LogRuns`, `Consumer`). Segments are classes over bytes, with sparse indexes, recovery,
  rolling, fetching and deletion. Above them a log is a value, a list of segments that reads as one run of
  batches, and runs of requests, retention and crashes are runs over that value. The classes are proved
  against the value. `Samples` builds batches that pass every check, for the statements that say something
  can happen.
- **Retention** (`Retention`): the sweep's own loops against the prefix it is after.
- **The cold tier** (`ObjectStore`, `Manifests`, `Uploader`, `Archive`, `UploadRuns`, `ColdTier`,
  `ColdTierRace`, `TieredFetch`, `TieredBoot`). The object store, the manifest with its two files, resumable
  uploads and the repair at boot are classes and methods. `Archive` cuts an upload into its single store and
  manifest writes, and `UploadRuns` shows the uploader's method to be a run of them; `ColdTier` runs these
  steps together with the log, retention, the deletion of other topics and crashes at any point.
- **Consumer groups** (`GroupModel`, `GroupSafety`, `GroupCoordinator`): the rebalance protocol as a step
  machine with its run invariants, and the coordinator's methods as steps of it.
- **The webhook dead-letter queue** (`DeadLetters`): claim, replay and park, with crashes between any two
  file operations, and a redelivery as a run of these.
- **Request framing** (`Varint`, `Requests`) and the "did you mean" distance (`EditDistance`).

## Main results

1. Recovery keeps exactly the longest leading run of whole batches with a matching checksum
   (`Framing.ScanIsLongest`); a crash that cuts the active file at any byte leaves exactly the batches that
   were whole (`Segments.RecoverAfterCut`).
2. In every run of accepted and refused requests, deletions and crashes the log is a gap-free suffix of the
   batches accepted so far, every one of them whole with a matching checksum (`LogRuns.EveryRunFromFresh`).
   Opening the files that a crash at any byte leaves costs exactly the batches it cut through
   (`LogRuns.EveryCrashIsCut`). A batch opens a new segment exactly when the active one holds something and has
   reached the size limit or its age (`LogRuns.RequestSealsExactlyWhen`), so that in every run each segment was
   below the limit before its last batch (`LogRuns.EverySegmentWithin`).
3. The sparse index, 32-bit truncation included, never changes what a lookup finds
   (`Segments.Image.FindBatchAt`). A fetch returns the longest run of whole batches that fits its budget, or the
   first one alone (`Fetching.FetchIsLongest`), and a client that keeps fetching receives every batch once and
   in order (`Consumer.ConsumeAll`).
4. An upload interrupted anywhere resumes to an object equal to the segment file
   (`Uploader.ResumedIsFile`), provided the part size did not change in between; the exact condition is
   `Uploader.ResumedWhen`.
5. With uploads one at a time and no other topic deleted meanwhile, in every interleaving of requests, rolls,
   upload steps, retention and crashes, every offset below the high watermark is on local disk or in cold
   storage. With two or more uploads at a time, which is the default, some run of accepted requests loses a
   segment, and so does one with a single upload and the deletion of another topic.
   `ColdTierRace.SafeExactlyWhenSequential` states both directions, for any checksum, digest and part size.
6. After such a run, at any offset and byte budget, a fetch answers exactly as a log that never deleted
   anything would if and only if the segment holding the offset is local, or the manifest lists it and the
   budget can hold a batch header (`TieredFetch.RunsReadThrough`). That is at every offset once boot is done and
   has had its answers since the last crash, whatever uploads are under way (`TieredBoot.BootedReadsThrough`).
   A crash can lose the entry of a deleted segment (`TieredBoot.SegmentGoesMissing`); its offsets are out of
   range until boot has judged the checkpoint, and until the next restart if the store does not answer then
   (`TieredBoot.OutOfRangeUntilRestart`).
7. From any start-up state, in every run, all answers of one group generation agree on leader and protocol,
   exactly one of them is the leader's and lists all members with their subscriptions, and the protocol is one
   that all of them advertised if there is one (`GroupSafety.AnswersAgree`, `GroupSafety.OneLeaderHearsOfAll`,
   `GroupSafety.ProtocolIsCommon`). A member loses its place exactly by leaving, by being swept at a join, or at
   the deadline (`GroupSafety.DroppedExactlyWhen`). The assignment in a SyncGroup reply is the one that the
   leader of the generation asked for handed out last for that member (`GroupSafety.RepliesAreHandedOut`). A
   leader's sync that arrives with the next rebalance already open is what spoils this: all later replies carry
   assignments of their own generation if and only if no such sync hands one to a member that has rejoined, and
   all later ones to followers come after their own leader's sync if and only if there is no such sync
   (`GroupSafety.FreshExactlyWhen`, `GroupSafety.ServedExactlyWhen`; `GroupSafety.StaleReplyHappens` is a run
   from an empty group).
8. No parked webhook record is ever lost, and without crashes none is duplicated (`DeadLetters.NeverLost`,
   `DeadLetters.ExactWithoutCrashes`). In every run what counts as delivered is exactly what the receiver
   acknowledged (`DeadLetters.DeliveredAre`), and a redelivery sends the records whose attempt succeeds, in
   order, and puts each other one back with the error of its own attempt (`DeadLetters.Queue.Redeliver`).
9. Whatever a client sends, reading its request does not panic (`Requests.NeverPanics`).
10. On a gap-free log a retention sweep removes a sealed segment exactly when all up to it are archived and
    either all up to it are past the age cap, or what is left from it on is more than the size cap
    (`Retention.SweepOnce`).

## Where the code and its comments differ

The model follows the code.

- `internal/tiering/manifest.go:96-98` says that flushing after every change means a crash never loses an
  uploaded segment. `AddCompleted` drops the checkpoint in memory before it writes `archive.json`, so another
  upload's flush, or the second flush of `ForgetTopic` for another topic, can write the checkpoint file without
  it first. The statement holds exactly when uploads run one at a time and no other topic is deleted (result 5).
- `internal/tiering/uploader.go:384-385` says that a lookup that fails at boot keeps the checkpoint. When the object
  is reported missing and listing the parts then fails, the checkpoint is dropped; it survives exactly when the
  first question fails or the second is answered (`Uploader.ResumableSurvives`,
  `Uploader.TransientErrorDrops`). In the sweep the same error starts the upload afresh
  (`Uploader.SweepContinuesWhen`).
- `internal/tiering/uploader.go:119-126` adopts completed uploads at boot so that no archived object is
  unreachable. Boot asks once: when the store does not answer about an object whose local file is gone, the
  segment stays unlisted and its offsets out of range until the next restart
  (`TieredBoot.OutOfRangeUntilRestart`).
- `internal/broker/group.go:527-534` says that a follower is not answered with the previous generation's
  partitions. It is after a late sync of the old leader (result 7).
- `internal/webhook/forwarder.go:441-443` counts all parked records; counting stops before a line of 8 MiB or
  more (`DeadLetters.Queue.Count`, `DeadLetters.LongLineHides`).
- `internal/tiering/uploader.go:231-233` trusts only parts of one size, but the last listed part is not
  checked; after a change of the part size a lone old part is trusted (`Uploader.PartSizeChangeCorrupts`).
- `internal/tiering/uploader.go:405-407` adopts an object only if its digest is the upload's; an object without
  a stored digest is adopted too (`Uploader.AdoptsForeignWhen`).
- The size recorded for a resumed upload counts a short last part as a full one (`Uploader.RecordedSizeWhen`).
- The varint reader's comment speaks of refusing over-long encodings; padded ones of up to ten bytes are
  accepted (`Varint.CanonicalWhen`, `Varint.PaddedIsAccepted`). The bound check on a tag's size wraps at 64
  bits; a size that wraps is accepted and moves the position back, so that the body begins too early
  (`Varint.BoundCheckWhen`, `Requests.WrappedSizeShiftsBody`), or that one tag is read as often as the count
  says (`Varint.OneTagManyTurns`).
- A fetch promises at least one whole batch; with a byte budget below 61 no header can be read and it reports
  an unreadable batch instead (`Fetching.SegFetch` spells out the cases).
- Nothing refuses a batch with a negative last offset delta; the batch after it gets an offset over again
  (`Layout.NegativeDeltaAccepted`, `Layout.DenseExactlyWhen`).
- Recovery returns early on an empty file and keeps index entries left over from a lost log; a lookup can then
  land inside a batch (`Segments.StaleIndexMisses`, `Segments.StaleIndexExample`).

## Conventions

Bytes are integers from 0 to 255 and files are sequences of them. The CRC is a parameter, so every theorem
holds for any checksum. The SHA-256 digest is a parameter too; where it matters that it tells contents apart
it is required to be injective. Clocks are parameters: whether a segment has reached its age, how old a
segment is, the time of a heartbeat. A disk or store operation either happens or the process dies before it,
except that the store may fail to answer about an object or about the parts of an upload.

Every lemma that would otherwise be proved by automatic induction carries `{:induction false}`.

## Model

| member | source | states |
|---|---|---|
| Bytes.Int64RoundTrip | internal/storage/record.go:126-154 | writing a signed 64-bit field big-endian and reading it back is the identity |
| Record.ParseBatchHeader | internal/storage/record.go:126-154 | a header parses exactly when there are 61 bytes, a length from 49 to 4 MiB and magic 2; a parsed batch is at least 61 bytes long; which bytes each field is read from is `Record.LayoutReadsBack` |
| Record.LayoutReadsBack | internal/storage/record.go:126-154 | whatever the field values, the bytes of a batch laid out field by field as the v2 format says read back as exactly these values |
| Record.HeaderIsLocal | internal/storage/record.go:126-154 | a header depends on nothing past the first 61 bytes |
| Record.RewriteBaseOffset | internal/storage/record.go:181-183 | in place, the first 8 bytes become the offset and every other byte stays |
| Record.SetPartitionLeaderEpoch | internal/storage/record.go:187-189 | in place, bytes 12 to 15 become the epoch and every other byte stays |
| Record.StampKeepsTheRest | internal/storage/record.go:160-189 | stamping writes the offset and a zero epoch, changes no other byte, no other header field, and nothing the CRC covers |
| Record.ValidateCompressionCodec | internal/storage/compression.go:32-45 | exactly the codecs 0 to 4 pass |
| Record.ValidateBatchAttributes | internal/storage/compression.go:70-83 | passes exactly with a known codec and neither the transactional nor the control bit |
| Record.ValidateBatchForAppend | internal/storage/compression.go:90-105 | passes exactly when size, header, attributes and CRC are all acceptable; told of the laid-out fields in `Record.LayoutValidates` |
| Record.LayoutChecks | internal/storage/record.go:156-172 | the checksum of a laid-out batch matches exactly when its CRC field is that of attributes, offsets, timestamps, producer fields and records |
| Record.LayoutValidates | internal/storage/compression.go:90-105 | a laid-out batch passes exactly with magic 2, a length in range, its own CRC, codec 0 to 4 and neither bit 4 nor bit 5 of the attributes; it is framed exactly when its length field counts its bytes |
| Record.StampKeepsAppendable | internal/storage/log.go:295-311 | a batch validated before stamping passes the segment's own checks after it and keeps its frame |
| Framing.ScanSound | internal/storage/segment.go:146-197 | what a scan keeps are whole acceptable batches and a prefix of the file |
| Framing.ScanThrough | internal/storage/segment.go:146-197 | a scan runs through leading acceptable batches and goes on behind them |
| Framing.ScanIsLongest | internal/storage/segment.go:146-197 | for any bytes, the scan is the longest leading run of acceptable whole batches: every such run is a prefix of it and vice versa |
| Framing.ScanIdempotent | internal/storage/segment.go:120-204 | recovering what recovery kept keeps all of it |
| Framing.ScanOfCut | internal/storage/segment.go:146-197 | of a file cut at any byte exactly the whole batches before the cut are kept |
| Framing.FitIsLargest | internal/storage/log.go:434-451 | the number of batches within a byte budget is the largest that fits |
| Framing.SplitBatches | internal/wire/produce.go:126-149 | splits the record field into whole batches that join back to it, or refuses it |
| Framing.SplitsWhenScanned | internal/wire/produce.go:126-149 | the split succeeds exactly when a scan consumes every byte, and then yields the scan |
| Framing.TrimToBatchBoundary | internal/storage/log.go:434-451 | returns exactly the whole batches at the front of a window |
| Index.OffsetIndex.MaybeAppend | internal/storage/index.go:96-117 | the new entries are those of the pure index after one more offer |
| Index.OffsetIndex.Reset | internal/storage/index.go:164-177 | the index is empty again |
| Index.LookupPosition | internal/storage/index.go:124-140 | binary search returns the last entry at or below the relative offset, or none |
| Index.BuildSorted | internal/storage/index.go:96-117 | entries strictly increase in relative offset whatever is offered in order |
| Index.PickedNear | internal/storage/index.go:96-117 | every mark that fits 32 bits is indexed or lies less than one interval behind an indexed one |
| Index.EntriesApart | internal/storage/index.go:96-117 | entries are at least one interval of bytes apart |
| Index.LookupIsSafe | internal/storage/index.go:96-140 | a lookup lands on the start of the wanted batch or an earlier one even after 32-bit truncation, and within one interval when nothing is truncated |
| Index.TimeIndex.MaybeAppend | internal/storage/timeindex.go:92-116 | the new entries are those of the pure time index after one more offer |
| Index.TimesIncrease | internal/storage/timeindex.go:92-116 | whatever the batches carry, timestamps in the index strictly increase: each is that of its batch or, where the entry before has reached that, one more than the entry before |
| Index.TimesNear | internal/storage/timeindex.go:92-116 | every batch whose relative offset fits 32 bits is indexed or lies less than one interval behind an indexed one |
| Index.TimesApart | internal/storage/timeindex.go:92-116 | the batches of successive entries are at least one interval of bytes apart |
| Layout.TimesOfBatches | internal/storage/segment.go:160-177 | each entry of a segment's time index is for one of its batches and no earlier than that batch's largest timestamp |
| Offsets.DenseConcat | internal/storage/log.go:261-335 | a run is dense exactly when its two halves are and the second begins where the first ends |
| Offsets.BatchAtHolds | internal/storage/segment.go:302-329 | the first batch ending at or after an offset holds it, exactly when the offset is below the end of the run |
| Offsets.BatchAtUnique | internal/storage/segment.go:302-329 | in a dense run no other batch holds the offset |
| Layout.StampedDense | internal/storage/log.go:301-323 | the batches of a request are stored as one dense run of framed batches from the high watermark on |
| Layout.DenseExactlyWhen | internal/storage/log.go:301-323 | whatever deltas the batches carry, the stored run is dense exactly when none is negative |
| Layout.NegativeDeltaAccepted | internal/storage/compression.go:90-105 | under any checksum some batch with a negative delta passes the validation, and storing it leaves the next offset where it was |
| Layout.WindowTrims | internal/storage/log.go:399-407 | a read window at a batch start trims to the batches that fit the budget |
| Segments.Image.FindBatchAt | internal/storage/segment.go:302-329 | through the sparse index, finds the position a scan from byte zero would: the only batch holding the offset, or the end |
| Segments.ReadAt | internal/storage/segment.go:284-298 | returns the bytes at a position, as many as asked for and present |
| Segments.IndexAgrees | internal/storage/segment.go:302-329 | the scan starts at a batch start not behind the wanted batch, and less than one interval before it |
| Segments.Segment.Open | internal/storage/segment.go:68-114 | opening recovers the file; the segment is consistent unless an empty file has index entries left over |
| Segments.Segment.Recover | internal/storage/segment.go:120-204 | file, next offset and both indexes become those of the longest valid run |
| Segments.Segment.Append | internal/storage/segment.go:249-277 | an acceptable batch is written at the end, and the segment stays consistent with its file exactly when the batch is as long as its frame says; indexes that agreed with the file still do; a sealed segment and an unacceptable batch leave everything as it was |
| Segments.Segment.Seal | internal/storage/segment.go:354-360 | sealing changes no stored byte, and the image handed over depicts the segment, with its indexes exactly when they agreed |
| Segments.RecoverAfterCut | internal/storage/segment.go:120-204 | a file cut at any byte recovers to exactly the whole batches, and recovering again changes nothing |
| Segments.StaleIndexMisses | internal/storage/segment.go:120-124 | with the index of a lost log left over, a lookup for the second lost offset lands on no batch start, whatever batch is stored first afterwards that reaches it and differs in length |
| Segments.StaleIndexExample | internal/storage/segment.go:120-124 | such batches exist under any checksum at the default index interval, and all of them pass validation |
| LogModel.ChainIsDense | internal/storage/log.go:182-221 | a gap-free list of segments reads as one dense run up to the high watermark |
| LogModel.AppendAllEffect | internal/storage/log.go:261-335 | whatever the roll decisions, a request extends the flat log by exactly its batches, keeps sealed segments and the chain |
| LogModel.RollEffect | internal/storage/log.go:339-360 | rolling moves neither the flat log nor the high watermark |
| LogModel.DeletesWhatEnds | internal/storage/log.go:529-555 | on a gap-free log exactly the sealed segments that end by the cutoff are deleted |
| LogModel.ChainDrop | internal/storage/log.go:529-555 | dropping leading segments keeps the chain and the high watermark |
| Fetching.FetchImage | internal/storage/log.go:395-429 | one segment answers with the longest run of whole batches within the budget, at least one, starting with the one that holds the offset, and with nothing past its end |
| Fetching.FetchIsLongest | internal/storage/log.go:376-430 | on a gap-free log a fetch returns the batches from the one that holds the offset on, as many of its segment as fit the budget and no fewer, or that one alone |
| Fetching.WindowOutcome | internal/storage/log.go:399-429 | what the trimmed window and its first header tell for every budget |
| Fetching.SegAtHolds | internal/storage/log.go:455-474 | the segment a fetch goes to holds the offset, and so does one batch in it |
| Logs.Log.Open | internal/storage/log.go:148-221 | for any files, the log is what recovery makes of each, or one empty segment at zero; its indexes agree with the files exactly when no empty file comes with index entries, and all batches in it are whole with matching checksums |
| Logs.Log.RollLocked | internal/storage/log.go:339-360 | seals the active segment and starts a new one at the high watermark, whatever the indexes hold |
| Logs.Log.FindSegment | internal/storage/log.go:455-474 | binary search finds the last segment that does not begin after the offset |
| Logs.Log.FetchAt | internal/storage/log.go:376-430 | answers as the value of the log says for every offset and budget, gaps between segments included |
| Logs.Log.DeleteSegmentsBefore | internal/storage/log.go:529-555 | exactly the leading segments whose successor begins by the cutoff go, and the log start moves there, whatever the indexes hold |
| Logs.ValidateAll | internal/storage/log.go:295-299 | finds the first unacceptable batch of a request, if any |
| Logs.Log.Append | internal/storage/log.go:261-335 | all or nothing: an acceptable request, whatever deltas its batches carry and whatever the indexes hold, is stored whole at the high watermark, any other changes no batch; matching checksums and agreeing indexes are kept; when a segment is sealed meanwhile is `LogRuns.RequestSealsExactlyWhen` and `LogRuns.RefusalSealsExactlyWhen` |
| Logs.AppendStep | internal/storage/log.go:301-323 | storing one stamped batch leaves the rest of the request the same plan |
| LogRuns.CutEffect | internal/storage/log.go:182-221 | losing the batches that a cut goes through keeps the chain and takes batches only from its end |
| LogRuns.RecoverSegment | internal/storage/segment.go:120-204 | the segment read back from a cut file is the segment with the batches that fit |
| LogRuns.ReopenIsCut | internal/storage/log.go:148-221 | opening the files of a log with intact batches, the active one cut at any byte and whatever the indexes hold, gives the log without the batches cut through |
| LogRuns.RunsKeepSuffix | internal/storage/log.go:182-360 | every run, in which requests are validated and a crash reopens the cut files, keeps the log a gap-free suffix of what was accepted with intact batches |
| LogRuns.EveryRunFromFresh | internal/storage/log.go:148-555 | from an empty directory, in every run, the segments concatenate to a suffix of the accepted batches, numbered densely from zero |
| LogRuns.EveryCrashIsCut | internal/storage/log.go:148-221 | in every reachable state, what Log.Open recovers after a crash at any byte is the log without the batches the cut went through |
| LogRuns.AppendsAreAdjacent | internal/storage/log.go:261-335 | successive requests get adjoining offset ranges |
| LogRuns.RequestSealsExactlyWhen | internal/storage/log.go:277-323 | in every run, each batch of a request opens a new segment if the active one holds something and has reached a positive size limit or its age, and joins the active one otherwise |
| LogRuns.RefusalSealsExactlyWhen | internal/storage/log.go:277-299 | in every run a refused request rolls the active segment under the same condition and changes nothing else |
| LogRuns.EverySegmentWithin | internal/storage/segment.go:224-238 | in every run with a size limit each segment was below it before its last batch |
| Consumer.ConsumeAll | internal/storage/log.go:376-430 | looping on FetchAt ends having received every batch from the start offset on, once and in order |
| Consumer.FetchReadsOn | internal/storage/log.go:376-430 | one fetch is a non-empty stretch of the flat log, and the next one goes on right behind it |
| Consumer.FetchFromArchive | internal/broker/restore_fetch.go:84-139 | the linear scan of a restored file and its trimming, against the outcome read off the segment |
| Consumer.ScanFromZero | internal/broker/restore_fetch.go:84-103 | the scan stops at the batch that holds the offset or reports that none does |
| Consumer.BothPaths | internal/broker/restore_fetch.go:84-139 | the indexed read of a segment and the linear scan of its restored file, run side by side, answer alike exactly when the byte budget is not zero |
| Retention.ArchivedPrefix | internal/storage/retention.go:66-74 | the leading archived segments: all of them are, the next is not |
| Retention.ExpiredAre | internal/storage/retention.go:81-86 | the age rule takes the leading segments older than the cap and stops at the first that is not; without a cap it takes none |
| Retention.OversizeIsFewest | internal/storage/retention.go:88-101 | the size rule asks for the fewest leading segments that bring the total to the cap |
| Retention.DueAre | internal/storage/retention.go:66-101 | a segment is due exactly when all up to it are archived, and all up to it are older than the age cap or the sizes from it on, the active segment included, exceed the size cap |
| Retention.Cutoff | internal/storage/retention.go:66-101 | the loops compute the end of the last segment due, or -1; which ones are due is `Retention.DueAre` |
| Retention.DeleteUpTo | internal/storage/retention.go:103-106 | deleting up to the end of segment k - 1 never reaches segment k, and without gaps removes exactly k |
| Retention.SweepOnce | internal/storage/retention.go:55-125 | a sweep removes leading segments only, every one of them archived and past the age or the size cap with all before it, never the active one; on a gap-free log it removes all such |
| EditDistance.EditDistance | internal/config/load.go:185-203 | the two-row table computes the recurrence |
| EditDistance.NothingCheaper | internal/config/load.go:185-203 | no script of single-byte edits is cheaper |
| EditDistance.Achieved | internal/config/load.go:185-203 | some script costs exactly that much |
| EditDistance.Triangle | internal/config/load.go:185-203 | the triangle inequality |
| EditDistance.Symmetric | internal/config/load.go:185-203 | the distance is symmetric |
| EditDistance.ZeroOnlyForEqual | internal/config/load.go:185-203 | zero exactly for equal strings |
| Varint.Uvarint | internal/wire/frame.go:173-188 | the shift-and-or loop on 64-bit words computes the positional value, with its overflow and truncation cases |
| Varint.OrAbove | internal/wire/frame.go:181-185 | or-ing in a group shifted above all bits of a word adds it |
| Varint.DecodeFits | internal/wire/frame.go:173-188 | an accepted number took at most ten bytes and fits 64 bits |
| Varint.RoundTrip | internal/wire/frame.go:173-188 | decoding the standard encoding of any 64-bit number, whatever follows, returns it and its length |
| Varint.CanonicalWhen | internal/wire/frame.go:173-188 | what was read is the standard encoding exactly when it has no superfluous final zero byte |
| Varint.PaddedIsAccepted | internal/wire/frame.go:173-188 | for every number below 2 to the 63 an encoding one byte longer is accepted too |
| Varint.SkipTaggedFields | internal/wire/frame.go:146-169 | the loop skips to where the section ends, with its malformed and out-of-bounds cases, in the stated number of turns |
| Varint.SkipsSection | internal/wire/frame.go:146-169 | over any encoded tags and any body exactly the section is skipped |
| Varint.BoundCheckWhen | internal/wire/frame.go:158-166 | a field is refused exactly when it runs past the buffer, and none moves the position back, exactly while position plus size does not wrap at 64 bits |
| Varint.FieldEndIs | internal/wire/frame.go:153-166 | where skipping a field ends in all three cases: past the buffer, inside it, wrapped |
| Varint.SectionEndInside | internal/wire/frame.go:146-169 | for any buffer the section is malformed or ends inside the buffer |
| Varint.WrappedSizeGoesBack | internal/wire/frame.go:163-166 | a section with one tag whose size wraps is accepted and ends before its own end |
| Varint.SectionTurnsBounded | internal/wire/frame.go:152-167 | while no size wraps the loop turns at most as often as the section has bytes |
| Varint.OneTagManyTurns | internal/wire/frame.go:152-167 | for every count below 2 to the 64 a section of at most 21 bytes makes the loop turn that often and is accepted |
| Requests.ReadRequest | internal/wire/frame.go:54-127 | the reader computes the parse of the connection's bytes for every size limit |
| Requests.NeverPanics | internal/wire/frame.go:54-127 | no bytes on the connection make the reader panic, whatever the limit and the flexible versions |
| Requests.FrameWithinLimits | internal/wire/frame.go:62-105 | a request is read only from a whole frame of at least ten bytes that both limits allow, and its client id and body are no longer than that |
| Requests.RequestRoundTrip | internal/wire/frame.go:54-127 | an encoded request reads back as its header and exactly its body, whatever tags it has and whatever follows |
| Requests.WrappedSizeShiftsBody | internal/wire/frame.go:117-126 | a frame with a tag whose size wraps reads back with a body that begins inside the tag section |
| DeadLetters.Queue.AppendDLQ | internal/webhook/forwarder.go:410-439 | one more record at the end of the queue file |
| DeadLetters.Queue.Count | internal/webhook/forwarder.go:444-466 | never more than the records of the queue file and the claim file together, and exactly as many if and only if no line is too long for the scanner, blanks at the end aside |
| DeadLetters.ScanShowsAll | internal/webhook/forwarder.go:451-466 | the scanner shows everything a file holds exactly when all lines from the first one that is too long on are blank |
| DeadLetters.LongLineHides | internal/webhook/forwarder.go:451-466 | a file with a line as long as the scanner allows and a parked record behind it holds two records and shows none |
| DeadLetters.Queue.Claim | internal/webhook/forwarder.go:522-559 | folds a leftover claim back into the queue file, then takes that over as the claim file with everything both held, or finds nothing; both are runs of the steps |
| DeadLetters.Queue.Redeliver | internal/webhook/forwarder.go:501-634 | record by record, queued before claimed: sent, in order, exactly if its attempt comes before the cancellation, it parses and the attempt succeeds, else back in the queue, behind what was parked meanwhile, with the error of that attempt or unchanged if it was garbled or not reached; nothing else is sent or queued; refused while another is running; a run of the steps |
| DeadLetters.Replay | internal/webhook/forwarder.go:568-617 | the lines kept and the lines sent, in order, blanks skipped, up to a cancellation; what these are is `DeadLetters.RecordFate` |
| DeadLetters.RecordFate | internal/webhook/forwarder.go:568-617 | each record is at its own place among the sent if it parses and its attempt succeeds before the cancellation, else at its own place among the kept, with the error of its attempt, or as it was |
| DeadLetters.SentCount | internal/webhook/forwarder.go:568-617 | as many are sent as succeed |
| DeadLetters.SentOrKept | internal/webhook/forwarder.go:568-617 | every record is sent or kept, whatever the attempts give and wherever the cancellation comes |
| DeadLetters.ReplayRuns | internal/webhook/forwarder.go:568-633 | the network phase and the two file operations after it are a run of the steps |
| DeadLetters.ParkCommutes | internal/webhook/forwarder.go:488-500 | when a record is parked during the network phase makes no difference |
| DeadLetters.StepSafe | internal/webhook/forwarder.go:410-634 | every single file operation and every crash keeps each parked record accounted for |
| DeadLetters.NeverLost | internal/webhook/forwarder.go:488-634 | in every run with crashes anywhere, each record is delivered, queued or claimed as often as it was parked |
| DeadLetters.CountsAddUp | internal/webhook/forwarder.go:619-633 | delivered and kept records add up to the claimed ones |
| DeadLetters.ExactWithoutCrashes | internal/webhook/forwarder.go:488-634 | without crashes nothing is lost and nothing duplicated |
| DeadLetters.StepDelivers | internal/webhook/forwarder.go:595-616 | a step adds to the delivered records exactly the one it acknowledges, and a failed or garbled one goes back with its error or as it was |
| DeadLetters.DeliveredAre | internal/webhook/forwarder.go:568-634 | in every run the delivered records are exactly those at the head of the work when an attempt succeeded |
| GroupSafety.StepKeeps | internal/broker/group.go:174-659 | every step keeps: the leader is empty or a member, rounds close once, closed rounds agree |
| GroupSafety.EveryRunIsSafe | internal/broker/group.go:115-659 | from any start-up state so does every run |
| GroupSafety.RunKeepsAnswers | internal/broker/group.go:409-469 | an answer once given is never changed |
| GroupSafety.AnswersAgree | internal/broker/group.go:409-469 | two answers of one generation, read at any two moments of a run from start-up, come from one round and agree on leader and protocol |
| GroupSafety.OneLeaderHearsOfAll | internal/broker/group.go:430-469 | in every run from start-up a closed round has exactly one leader answer, and its list is exactly the members answered with their subscriptions |
| GroupSafety.ProtocolIsCommon | internal/broker/group.go:474-501 | in every run from start-up the protocol answered is one that every member answered had advertised whenever there is one, and else the last joiner's first |
| GroupSafety.EarlyCloseDropsNobody | internal/broker/group.go:358-363 | in every run from start-up, a join that brings the last expected member back closes the round, keeps all members and answers exactly them |
| GroupSafety.EarlyCloseHappens | internal/broker/group.go:358-363 | a run from an empty group in which a round closes early |
| GroupSafety.DroppedExactlyWhen | internal/broker/group.go:174-659 | in every run from start-up, a step costs a member its place if and only if it leaves, a join sweeps it away without registering it anew, or the deadline passes and it has not joined |
| GroupSafety.ClosesExactlyWhen | internal/broker/group.go:358-406 | in every run from start-up an open round is closed exactly by its own timer or by the join that brings the last expected member back |
| GroupSafety.BeatIsLastHeard | internal/broker/group.go:174-659 | in every run the heartbeat kept of a member is its last join, or sync or heartbeat of the current generation, and none is kept of anyone else |
| GroupSafety.RecordIsLastJoin | internal/broker/group.go:339-352 | in every run a member has the client id, session timeout, subscription and protocols of its last join, or of the file |
| GroupSafety.LatestIsLastNamed | internal/broker/group.go:353-355 | in every run the fallback protocols are those of the last join by anyone |
| GroupSafety.StatusMoves | internal/broker/group.go:260-659 | every step leaves the group preparing, completing, stable or empty by whether a round opened or closed, the leader synced, or a member left, and as it was otherwise |
| GroupSafety.NoStaleReply | internal/broker/group.go:535-600 | from start-up on, without a premature sync no SyncGroup reply carries an assignment of another generation |
| GroupSafety.RepliesAreHandedOut | internal/broker/group.go:555-600 | from start-up on, without a premature sync, an assignment in a SyncGroup reply, at once or on waking, is what the leader of the generation asked for last handed out for that member |
| GroupSafety.HandedIsAnswered | internal/broker/group.go:555-575 | the leader is answered with what it just sent for itself, every member it names with theirs, and the others with what they had |
| GroupSafety.PrematureGoesStale | internal/broker/group.go:535-600 | after any premature sync that names another member, that member is answered with it in the next generation although it does not lead |
| GroupSafety.FreshExactlyWhen | internal/broker/group.go:529-600 | after a run without premature syncs, one more step leaves all later replies fresh if and only if it is not a premature sync |
| GroupSafety.StaleReplyHappens | internal/broker/group.go:529-600 | a run from an empty group in which a follower is answered with its assignment of the generation before |
| GroupSafety.RestartIsInitial | internal/broker/group.go:115-134 | without premature syncs the state a restart reads back is a start-up state again |
| GroupSafety.ServedExactlyWhen | internal/broker/group.go:529-583 | after a run without late syncs, one more step leaves every later success of a follower to follow its own leader's sync if and only if it is not a late sync |
| GroupSafety.LateGoesUnserved | internal/broker/group.go:560-580 | after any late sync a follower of the next generation can be answered at once, with nothing |
| GroupSafety.WokenIsServed | internal/broker/group.go:582-600 | without late syncs a follower that waited is answered with success only after the leader of the generation it asked for has synced |
| GroupCoordinator.PickLeader | internal/broker/group.go:736-746 | the smallest member id, or none |
| GroupCoordinator.PickCommonProtocol | internal/broker/group.go:474-501 | a name all members advertise if there is one, else the documented fallback |
| GroupCoordinator.AllBack | internal/broker/group.go:385-392 | whether everyone expected has joined |
| GroupCoordinator.LiveGroup.EvictExpired | internal/broker/group.go:174-213 | exactly the members whose heartbeat is too old leave |
| GroupCoordinator.LiveGroup.JoinGroup | internal/broker/group.go:260-381 | a join is the join step of the protocol |
| GroupCoordinator.LiveGroup.ExpireRound | internal/broker/group.go:397-406 | the deadline is the expire step |
| GroupCoordinator.LiveGroup.CloseRound | internal/broker/group.go:409-469 | closing drops who did not rejoin, bumps the generation, makes the smallest id leader if there is none left, and answers the rest |
| GroupCoordinator.LiveGroup.SyncGroup | internal/broker/group.go:535-600 | a sync is the sync step, with its reply; what the replies carry is `GroupSafety.RepliesAreHandedOut` and `GroupSafety.HandedIsAnswered` |
| GroupCoordinator.LiveGroup.SyncWake | internal/broker/group.go:582-600 | what a follower that waited is answered, by the generation and the members then |
| GroupCoordinator.LiveGroup.Heartbeat | internal/broker/group.go:611-629 | a heartbeat is the heartbeat step, with its code |
| GroupCoordinator.LiveGroup.LeaveGroup | internal/broker/group.go:633-659 | a leave is the leave step, with its code; the smallest id left takes the place of a leader |
| ObjectStore.PartStartIs | internal/tiering/uploader.go:240-255 | parts start at multiples of the part size, clipped to the file |
| ObjectStore.AssembledPrefix | internal/objstore/fs.go:226-252 | parts 1 to n cut from a file make up the beginning of it |
| ObjectStore.TrustedAreStored | internal/tiering/uploader.go:231-239 | every part a resume trusts is in the store, without a gap |
| ObjectStore.TrustedStops | internal/tiering/uploader.go:231-239 | trust ends only at a gap in the numbers or at a part of another size with one behind it |
| ObjectStore.StoredAreListed | internal/objstore/fs.go:176-206 | no stored part is left out of the list |
| ObjectStore.InOrder | internal/objstore/fs.go:231-232 | the part numbers a completion names, each as often as it was named |
| ObjectStore.InOrderSorts | internal/objstore/fs.go:231-232 | they are in ascending order |
| ObjectStore.SameNumbers | internal/objstore/fs.go:231-252 | whether all named parts are stored does not depend on the order they are named in |
| ObjectStore.Store.UploadPart | internal/objstore/fs.go:142-174 | a part numbered 1 to 10000 of a known upload is stored, any other refused |
| ObjectStore.Store.ListParts | internal/objstore/fs.go:176-206 | lists the stored parts in order of number, says that there is no such upload, or fails |
| ObjectStore.Store.CompleteMultipart | internal/objstore/fs.go:208-279 | for any list of part numbers, the object is those parts joined in ascending order and labelled, or nothing changes because one is missing |
| Manifests.AddedAre | internal/tiering/manifest.go:218-235 | recording an entry removes exactly the entries of its partition that overlap it or share its base |
| Manifests.AddedDisjoint | internal/tiering/manifest.go:218-235 | entries of a partition never overlap |
| Manifests.LookupAdded | internal/tiering/manifest.go:218-294 | after recording, the key leads to the new entry and every other key that does not clash where it did |
| Manifests.HoldsWhen | internal/tiering/manifest.go:302-305 | the archive holds a segment exactly when some entry for its key reaches as far and is as large |
| Manifests.OnlyHit | internal/broker/restore_fetch.go:31-48 | an offset is covered by at most one entry, and that is the one found |
| Manifests.FindEntry | internal/broker/restore_fetch.go:31-48 | the search returns the first entry covering the offset, or none |
| Manifests.Manifest.AddCompleted | internal/tiering/manifest.go:218-235 | memory and both files hold the new list and no checkpoint for the key |
| Manifests.Manifest.SetPending | internal/tiering/manifest.go:238-245 | memory and file hold the checkpoint |
| Manifests.Manifest.AbortPending | internal/tiering/manifest.go:276-281 | the checkpoint is gone from memory and file |
| Manifests.Manifest.ForgetTopic | internal/tiering/manifest.go:312-328 | exactly the deleted topic's entries and checkpoints go |
| Uploader.ResumedWhen | internal/tiering/uploader.go:214-322 | whatever part size the stored parts were cut with, the resumed object is the file exactly when the kept parts end where reading resumes |
| Uploader.ResumedIsFile | internal/tiering/uploader.go:214-322 | with the part size unchanged, any surviving set of parts resumes to the file |
| Uploader.ResumesOnlyItsOwn | internal/tiering/uploader.go:228-239 | of a checkpoint for other bytes no part is kept, so an upload only starts from parts of its own file |
| Uploader.PartSizeChangeCorrupts | internal/tiering/uploader.go:231-255 | a lone part of another size is trusted and the object comes out wrong |
| Uploader.RecordedSizeWhen | internal/tiering/uploader.go:291-316 | the recorded size is never too small, and right exactly when the kept parts are full ones |
| Uploader.OpenUpload | internal/tiering/uploader.go:214-285 | continues the checkpointed upload behind its trusted parts, or starts and checkpoints a new one when there are none or the store fails to list them |
| Uploader.SweepContinuesWhen | internal/tiering/uploader.go:214-285 | a checkpointed upload is continued exactly when the store lists its parts and the first is there and full or alone |
| Uploader.SendParts | internal/tiering/uploader.go:287-322 | sends the rest of the file in order, and fails exactly when the file needs more than 10000 parts |
| Uploader.UploadOne | internal/tiering/uploader.go:185-361 | on success the object at the key is the segment file with its digest and the manifest lists it; on failure the manifest's entries stay and the checkpoint goes |
| Uploader.AdoptsOnlyItsOwn | internal/tiering/uploader.go:405-430 | of objects labelled with their own digest, exactly the checkpointed segment's is adopted |
| Uploader.AdoptsForeignWhen | internal/tiering/uploader.go:405-419 | a foreign object is adopted exactly when it or the checkpoint carries no digest |
| Uploader.AdoptingAgain | internal/tiering/uploader.go:420-438 | adopting an upload already recorded changes no other lookup, and its own exactly when the recorded size or digest differs |
| Uploader.ReconcileOrAbort | internal/tiering/uploader.go:387-441 | leaves, drops or adopts a checkpoint by what the store answers, or fails to answer, about the object and about the parts |
| Uploader.ResumableSurvives | internal/tiering/uploader.go:387-401 | a checkpoint with stored parts and no object survives exactly when the store fails to answer about the object or answers about the parts |
| Uploader.VerdictIs | internal/tiering/uploader.go:387-425 | a checkpoint is left exactly while the store does not answer about the object, or has none but lists a part; adopted exactly with an object that does not contradict its digest, with its own end, the object's size and the digest known; else dropped |
| Uploader.TransientErrorDrops | internal/tiering/uploader.go:395-401 | a checkpoint whose parts are there is dropped when the object is missing and listing the parts fails |
| Archive.AddedKeys | internal/tiering/manifest.go:218-235 | recording a segment evicts no other segment's entry |
| Archive.JudgementRight | internal/tiering/uploader.go:387-441 | in a consistent state boot adopts an object exactly when it is the checkpointed segment |
| Archive.StepKeeps | internal/tiering/uploader.go:109-441 | with uploads one at a time and no other topic deleted every store and manifest write, with the store failing to answer or not, keeps all entries, checkpoints, parts and objects right and every deleted segment covered, now and after a crash |
| Archive.CrashKeeps | internal/tiering/manifest.go:126-186 | a crash between any two writes keeps it too |
| Archive.StepLists | internal/tiering/manifest.go:218-328 | no step but a crash takes a segment off the manifest |
| Archive.BootLists | internal/tiering/uploader.go:119-134 | a deleted segment whose entry a crash lost is listed again once boot has judged its checkpoint |
| Archive.StaysOut | internal/tiering/uploader.go:119-183 | a deleted segment that is not listed and that boot will not judge any more is listed by no step but a crash |
| UploadRuns.UploadSegment | internal/tiering/uploader.go:185-361 | an upload, finished or given up, takes store and manifest where a run of the events leads, with no upload left running |
| UploadRuns.UploadIsRun | internal/tiering/uploader.go:185-361 | that run: start, checkpoint, parts each with their checkpoint, rename, label, note and the two flushes, or the abort |
| ColdTier.StepKeeps | internal/tiering/uploader.go:155-183 | accepted and refused requests, upload steps, sweeps, deletions and crashes with recovery each keep the whole tier consistent and its batches intact |
| ColdTier.DecideDooms | internal/storage/retention.go:66-106 | a sweep over held segments dooms only segments in the manifest |
| ColdTier.RunNoClash | internal/tiering/manifest.go:218-235 | in every run, at any concurrency, no two entries of a partition overlap or share a base |
| ColdTier.RunsLoseNothing | internal/tiering/uploader.go:155-361 | with uploads one at a time and no other topic deleted, after any run every offset below the high watermark is in a local segment or in a segment whose bytes are in the store, listed or checkpointed |
| ColdTierRace.OverlapCanLose | internal/tiering/manifest.go:218-245 | with two uploads at a time, or one and the deletion of another topic, some run of accepted requests leaves an offset in neither place, whatever checksum, digest, part size and segment limit |
| ColdTierRace.SafeExactlyWhenSequential | internal/tiering/manifest.go:386-391 | no reachable state loses an offset if and only if the upload concurrency is one and no other topic is deleted |
| TieredFetch.HitIsRight | internal/broker/restore_fetch.go:31-48 | the entry found for an offset of a listed segment is that segment's |
| TieredFetch.ServesOnlyVerified | internal/tiering/restorer.go:109-167 | whatever the manifest and the store hold, only an object with the digest recorded for it is served, and one whose entry covers the offset |
| TieredFetch.ArchivedFetch | internal/broker/broker.go:511-545 | for a deleted segment the broker answers as if it were still local exactly when the manifest lists it and the budget can hold a batch header, and is out of range otherwise |
| TieredFetch.TieringIsTransparent | internal/broker/broker.go:511-545 | at every offset and budget, fetching from both tiers is fetching from a log that never deleted anything if and only if the segment holding the offset is local, or listed with a budget for a batch header |
| TieredFetch.RunsReadThrough | internal/broker/broker.go:511-545 | this holds after every run with uploads one at a time and no other topic deleted; with every checkpoint settled all deleted segments are listed |
| TieredBoot.BootedReadsThrough | internal/tiering/uploader.go:119-134 | after any such run in which boot has had its answers since the last crash and is done, every offset reads as from a log that never deleted anything |
| TieredBoot.StepAccounts | internal/tiering/uploader.go:119-134 | every step but an unanswered question at boot keeps each deleted segment listed or for boot to judge, and a crash brings that about |
| TieredBoot.OutOfRangeUntilRestart | internal/tiering/uploader.go:119-134 | a deleted, unlisted segment that boot will not judge any more is out of range through any run without a restart |
| TieredBoot.SegmentGoesMissing | internal/tiering/manifest.go:218-235 | with one upload and no deletion some run makes an offset out of range that a log would still have |
| TieredBoot.SkippedIsMissed | internal/tiering/uploader.go:387-394 | when the store does not answer about the object at boot, the segment is one of those |
| TieredBoot.JudgedIsListed | internal/tiering/uploader.go:405-438 | when it answers, the segment is listed again |

## Left out

- Logs.Log.Append: requires whole batches, as the produce path splits them, and offsets within 64 bits.
- Logs.Log.FetchAt: requires a non-negative byte budget, because a negative one makes the source panic, segments in order of their bases, which is how they are opened, and indexes that agree with the files (`Segments.StaleIndexMisses` shows why).
- Logs.Log.Append: the caller's buffers, which the source stamps in place, are values here; the in-place rewrite is modelled in `Record`.
- Sealed segments are immutable values in the log; only the active segment is an object.
- The byte encoding of the index files, and lookup by timestamp.
- When data reaches the disk: sealed segments and manifest files are durable once written, the active file may be cut anywhere.
- Disk and network operations that fail while the process lives on, other than a store that does not answer about an object or about parts, and refused parts.
- ColdTier.RunsLoseNothing: one partition; the deletion of its own topic appears in `Manifests.Manifest.ForgetTopic` only, and an upload given up because the path no longer leads to the file only as such.
- ColdTier.RunsLoseNothing: other objects in the store are taken to be labelled with their own digest.
- TieredFetch.RunsReadThrough: the restore cache, its retries and timeouts, and tenant and signature checks are not modelled.
- Uploader.UploadOne: the part list inside a checkpoint, which nothing reads back, is not modelled.
- DeadLetters.NeverLost: a line torn by a crash in the middle of a write is not modelled.
- GroupSafety.EveryRunIsSafe: a start-up state has assignments of the persisted generation; a file written after a premature sync has others (`GroupSafety.RestartIsInitial`).
- GroupSafety.StepKeeps: one group; loading and saving group state, and the wire forms of subscriptions and assignments, are not modelled.
- Salvage of corrupt manifest files, the S3 driver, HMAC signatures, tenants, ACLs, SASL, the admin API, configuration parsing, metrics.
- Produce and fetch request bodies, long polling and throttling.
