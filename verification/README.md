# The storage emulator, modelled and proved in Dafny

The emulator answers Google Cloud Storage requests from an in-memory index. With the file backend it
also mirrors that index onto a directory tree and rebuilds the index from the tree at startup. This
project models its stateful core and its two self-contained algorithms, and proves what they keep.

* **Uploads.** `GrpcUpload` and `RestUpload` are the loops that receive bytes at client-given offsets,
  skip what is persisted, and stop at injected faults (`RetryTests`). Each class is proved against a
  step function; the lemmas are about every sequence of streams or requests. `StreamLaws` and
  `RequestLaws` say from the messages and headers alone what is accepted, refused and completed.
* **Index and notifications.** `Database` is the class of buckets, generations, live generations and
  folders. Each method states its new index and the notification it sends. `DatabaseRuns` proves that
  an independent store that replays the notifications of any run holds the index.
* **File backend.** `Posix` is a file system of names, inodes and open descriptors. `Pathing` and
  `Layouts` place objects in it, `FileMedia` keeps bytes in it, and `FileStore` is the class that
  performs each notification call by call. `Shelves` and `StoreSteps` say what a notification does to
  the entries of a tree.
* **Whole system.** `Worlds` joins the index, the store and the uploads in one state machine whose
  steps are the locked database operations and the appends between them. `Mirroring` is the
  invariant, `MirrorSteps`, `SoundSteps`, `Placing` and `WorldRuns` prove that every step keeps it, and
  `Restart` and `Appendables` draw the conclusions about whole runs. `Requests` says of every step what
  it leaves for those who asked, and `Survival` that it stays until a request for the same name, and is
  there after a restart. `Rebuild` is the startup scan as a loop over the trees in any order. `Fitting`
  says which names can be stored together, `Limits` exactly where the mirror stops, and `Witnesses` has
  runs on which it does. `Asides` is about soft-deleted generations and folders on disk.
* **Writers and snapshots.** These do not depend on the mirror, and are about every run. `Writers` is the
  database with operations on any generation, soft delete and restore. `Snapshots` is the store with
  notifications for any generation.
* **Reads and copies.** `ReadObject`, `BidiRead` and `Rewrite`.
* **Algorithms.** `ParseFields`, `RestPatch` and `ListObjects`.

Classes hold the fields the source updates; a media of the file backend is a record in the store's
table and is referred to by its number, so that an object and its upload share one media as they do
in the source. Lemmas hide definitions they do not need to keep the proofs small.

Inputs that the source takes from outside are parameters: the chunk size of reads, the precondition
callbacks, the expiry test of soft-deleted copies, the order in which directories and dictionary
entries are listed. A SHA-256 digest and an MD5 digest are taken to identify what they were computed
from; CRC32C is computed (section 12.1 of RFC 3720).

## What turned out false, and when it is true

* A REST chunk is trimmed correctly exactly when it leaves no gap and does not resend the only
  persisted byte (`RestUpload.TrimmingIsExact`); the smallest duplicated byte is
  `RestUpload.ResentFirstByteIsDuplicated`. The two REST completion tests agree exactly unless a chunk ends
  at the declared total while more is persisted (`RestUpload.CompletionTestsAgree`).
* `FileMedia.chunks` agrees with `BytesMedia.chunks` exactly when no chunk starts past the end
  (`FileMedia.FileMedia.GetChunks`, `FileMedia.LastChunkDecides`).
* The report that follows an appendable insert is the truth exactly when the two generations differ
  (`DatabaseRuns.AppendableReport`). A restore takes the number after the copy's, which the next new
  object can be given too, and then it is not (`DatabaseRuns.RestoredNumberReused`).
* Notifications do not tell what an update changed before its callback raised: the index has it, the
  store does not. They tell the index exactly when no raised callback has changed anything
  (`DatabaseRuns.StepTold`, `DatabaseRuns.RaisedBucketUpdateUntold`, `DatabaseRuns.RaisedObjectUpdateUntold`).
* A takeover issues a handle and fences earlier writers exactly when it finds the live generation; of a
  generation that was overwritten it does nothing, and the last handle goes on working
  (`Writers.TakeOverFences`, `Writers.TakeOverFencesNobody`).
* A handle that is out of date stays so, with two exceptions. A restore can bring back an unfinished
  object under the number it was for: it is still out of date exactly when the copy is finalized or has a
  later handle (`Writers.RestoreFences`, `Writers.RestoreReopens`). And a number that a restore has made
  can be handed out again: it is still out of date exactly when the new object is whole or refused
  (`Writers.NumberFences`, `Writers.NumberReopens`).
* The checksum of a finished appendable object is that of its bytes exactly when the last checkpoint's
  was: bytes that a fault left and nothing checkpointed are not in it (`Appendables.FinishAgrees`,
  `Witnesses.WrongForGood`).
* After a restart a bucket and a live object are back as the store was last told. That is the past
  after an appendable insert over an existing object, and after an update that raised, until the next
  update. An object's media reads the same bytes; its checksums are right exactly when that metadata is,
  and if it is the object's own, exactly when it records a length above zero or there are no bytes: bytes
  that an aborted first append left are not recorded (`Restart.RunAndRestart`, `Witnesses.StoreFallsBehind`,
  `Witnesses.RaisedPatchNotTold`, `Witnesses.RaisedLabelNotTold`, `Witnesses.BytesNotRecorded`).
* A restore that a precondition refuses leaves the soft-deleted copy under the number it would have had.
  One that succeeds also forgets the other soft-deleted copies of the name: it keeps those of the
  restored number, which has just moved on (`Database.Database.RestoreCopy`).
* A delete keeps the mirror exactly when no other generation of the name is live
  (`Limits.DeleteMustBeLive`), an update exactly when it is aimed at the live generation or finds none
  (`Limits.UpdateMustBeLive`, `Witnesses.OlderGenerationHurts`); with no live generation an update leaves
  metadata without media (`Limits.UpdateResurrects`, `Witnesses.UpdateAfterDelete`).
* The insert that finishes an upload succeeds exactly when its staging name is still on disk; it is
  not when the bucket was deleted meanwhile, even if it was made again (`Limits.FinishNeedsStaging`,
  `Witnesses.StagingGoesWithBucket`).
* Inserting media that is already settled, as a restore does, moves no bytes under the name
  (`Limits.SettledInsertMovesNothing`).
* Two natural names are in each other's way exactly when one begins with the other, or with the
  other's sidecar name, and a slash (`Layouts.NaturalNamesNest`). A name with an empty path component,
  and the name `.gcs`, cannot be stored at all (`Fitting.UnstorableRefused`). Beside names that are stored
  one more can be stored exactly when it is compatible with them (`Fitting.FitsExactly`).
* `list_object` does not roll up a name that begins with the delimiter
  (`ListObjects.PrefixEndsAtDelimiter`).

## Model

| member | source | states |
|---|---|---|
| `RetryTests.RetryTest.HasInstructions` | testbench/database.py:895-903 | true exactly when some of the original instructions of the method are not consumed yet and the transport matches |
| `RetryTests.RetryTest.PeekNextInstruction` | testbench/database.py:905-913 | the first of the original instructions that is not consumed yet; looking consumes nothing |
| `RetryTests.RetryTest.DequeueNextInstruction` | testbench/database.py:915-929 | the head is taken once and in order; what was consumed and what remains is always the original list, and the test is completed exactly when something was consumed and every queue is empty |
| `GrpcUpload.Upload.Receive` | gcs/upload.py:241-281 | trimming, offset check, injected fault and append are one step of the specification, the instruction queue included |
| `GrpcUpload.Upload.WriteObject` | gcs/upload.py:171-300 | a whole WriteObject stream ends in the state and with the error the specification gives |
| `GrpcUpload.Upload.BidiWriteObject` | gcs/upload.py:540-679 | the same for a BidiWriteObject stream; the persisted sizes it reports are those after the messages that ask for them and after the first one of an appendable upload, they never decrease and are never more than what is persisted at the end |
| `GrpcUpload.PersistHonest` | testbench/common.py:1053-1061 | one honest message extends the persisted prefix to its end; a fault in reach leaves exactly the bytes before it and takes one instruction; a gap is refused and changes nothing |
| `GrpcUpload.StreamSafe` | gcs/upload.py:540-676 | any honest stream, whatever stops it, leaves a prefix of the client's object that is no shorter than before |
| `GrpcUpload.ReachKnown` | gcs/upload.py:577-618 | while a stream runs, exactly the bytes it has reached are persisted and no fault was in reach |
| `GrpcUpload.FinishedStream` | gcs/upload.py:577-679 | a stream that stops without an error has come to a finishing message: the upload is complete, and exactly what the messages up to it reach is persisted |
| `GrpcUpload.UploadsKeepPrefix` | gcs/upload.py:577-618 | over any number of honest streams the media only grows and stays a prefix of the client's object, and instructions are taken from the front of the queue |
| `GrpcUpload.InterleavedKeepPrefix` | gcs/upload.py:446-449 | over any number of honest streams open at once, their messages in any order, the media only grows and stays a prefix of the client's object, and exactly one instruction is taken from the front of the queue for each stream that an injected fault stopped |
| `GrpcUpload.AloneIsRun` | gcs/upload.py:540-676 | a stream that has the upload to itself does, turn by turn, what its message loop does |
| `GrpcUpload.TurnAgain` | gcs/upload.py:577-593 | a message that is already persisted, sent by any of the open streams, appends nothing and takes no instruction |
| `GrpcUpload.ReplayAppendsNothing` | gcs/upload.py:577-593 | a stream of messages that are already persisted appends nothing and takes no instruction |
| `StreamLaws.StreamDecided` | gcs/upload.py:171-300 | for any messages to an upload that is not complete, read off the messages: WriteObject and BidiWriteObject end without an error if and only if every message they come to has its checksums in place, data that means something, the checksum of its data, no gap and no fault in reach; the error is that of the first message that has not; the upload is complete if and only if some accepted message finishes it |
| `StreamLaws.CompleteStays` | gcs/upload.py:179-187 | a stream to a complete upload changes nothing, and is an error exactly for WriteObject |
| `StreamLaws.SizesDecided` | gcs/upload.py:659-675 | message by message, a bidirectional stream answers exactly those that ask, and the first one of an appendable upload, with the length their data reaches |
| `RestUpload.Upload.HandleFault` | testbench/common.py:1000-1037 | the fault helper commits its part of the chunk, fails exactly when the bytes before the fault are persisted, and takes the instruction only then |
| `RestUpload.Upload.ResumableUploadChunk` | testbench/rest_server.py:1185-1340 | one PUT request answers and changes the upload as the step function says, on every header form; a header that does not match at all fails the request |
| `RestUpload.TrimmingIsExact` | testbench/rest_server.py:1319-1325 | an honest chunk leaves exactly the longer prefix if and only if it leaves no gap and does not resend the one persisted byte |
| `RestUpload.ResentFirstByteIsDuplicated` | testbench/rest_server.py:1321-1325 | the input on which a byte is duplicated |
| `RestUpload.FaultIsExact` | testbench/common.py:1015-1029 | a fault leaves exactly the bytes before it whatever the overlap of the chunk, and is not reached by a chunk that ends before it |
| `RestUpload.ChunkIsExact` | testbench/rest_server.py:1248-1333 | a chunk in place persists everything up to its end and completes exactly at the declared total, or stops at a fault with exactly the bytes before it |
| `RestUpload.CompletionTestsAgree` | testbench/rest_server.py:1326-1333 | completion is the same as having the declared length, except when a chunk ends there and more is persisted |
| `RestUpload.UploadIsExact` | testbench/rest_server.py:1185-1340 | over any run of fair requests the media is a growing prefix of the client's object, and a complete upload holds all of it |
| `RequestLaws.RequestDecided` | testbench/rest_server.py:1185-1340 | one fair request, read off its headers: refused and without effect, after the end and without effect, failed at the fault, or answered with the object if and only if it completes the upload |
| `RequestLaws.UploadCompletes` | testbench/rest_server.py:1185-1340 | over any run of fair requests the upload is complete if and only if it was, or some request that is not refused had no range, asked with the persisted length, or was a chunk that no fault stopped and that reached the total; exactly that request is answered with the object |
| `Database.Database.InsertBucket` | testbench/database.py:129-138 | an insert or the refusal of a duplicate; the index is what a store makes of the notification |
| `Database.Database.DeleteBucket` | testbench/database.py:215-231 | refused when missing, by precondition, or with live objects, in that order, and then nothing changes |
| `Database.Database.UpdateBucket` | testbench/database.py:630-645 | the bucket gets what the callback made of it, also if the callback raised; the store is told exactly when it returned |
| `Database.Database.Clear` | testbench/database.py:86-100 | everything is forgotten, with one notification |
| `Database.Database.InsertFolder` | testbench/database.py:945-954 | a folder insert or the refusal of a duplicate |
| `Database.Database.DeleteFolder` | testbench/database.py:964-970 | a folder delete or not found |
| `Database.Database.RenameFolder` | testbench/database.py:986-999 | the folder moves to the new name, unless the source is missing or the destination taken |
| `Database.Database.InsertObject` | testbench/database.py:523-546 | a refused insert changes and reports nothing; an accepted one makes its generation live |
| `Database.Database.DeleteObject` | testbench/database.py:548-585 | the generation the request means goes exactly if it is there and the precondition holds of it, the live entry with it exactly when it was the live one, and the notification says whether a copy was kept; otherwise not found or refused, and nothing changes |
| `Database.Database.UpdateObject` | testbench/database.py:587-628 | the generation the request means gets what the callback made of it, also if the callback raised, exactly if it is there and the precondition holds of it; the store is told exactly when the callback returned; otherwise not found or refused, and nothing changes |
| `Database.FindDecides` | testbench/database.py:454-491 | a request gets past the check if and only if the generation it means is in the dictionaries and its precondition holds of that and of the live number; it is refused for the precondition if and only if that is there and it does not hold |
| `Database.Database.InsertAppendable` | gcs/upload.py:326-352 | refused by preconditions and over an unfinalized object; reported as the new object and then the old one |
| `Database.Database.RemoveExpired` | testbench/database.py:348-365 | the copies past their time go and the others stay, in order; the log grows by exactly one purge for each that goes, in order |
| `Database.PieceByPiece` | testbench/database.py:348-365 | the copies that stay and those that go keep their order: they are those of any first part and then those of the rest |
| `Database.Database.RestoreObject` | testbench/database.py:647-700 | which error is given, what is reported, what becomes of the soft-deleted copies, and that the index changes by one insert or not at all |
| `Database.RestoreSucceeds` | testbench/database.py:655-681 | a restore succeeds if and only if the bucket has the policy, the generation is not in the index, an unexpired copy of it exists and the preconditions hold |
| `Database.Database.RestoreCopy` | testbench/database.py:664-699 | a refused restore leaves the copy renumbered among the soft-deleted ones; a successful one reports the insert and the purge of the old number, and then only copies of the old number are kept |
| `DatabaseRuns.AppendableReport` | testbench/database.py:623-627 | the second report of an appendable insert is redundant if and only if the generations differ |
| `DatabaseRuns.Execute` | testbench/database.py:86-700 | any operation, with any callback as update, one that changes the value and then raises included, changes the database and the log exactly as specified |
| `DatabaseRuns.RefusedDoesNothing` | testbench/database.py:489-491 | a delete or an update whose precondition does not hold leaves the database as it was, and reports nothing |
| `DatabaseRuns.GrantedDelete` | testbench/database.py:548-585 | a delete whose precondition holds takes that generation, and the live entry if it is the live one, and reports it as soft exactly in a bucket with the policy |
| `DatabaseRuns.GrantedUpdate` | testbench/database.py:587-628 | an update whose precondition holds leaves what its callback makes of that generation, and reports it exactly if it returns |
| `DatabaseRuns.StepTold` | testbench/store.py:17-25 | from an index that its notifications tell, they tell the next one if and only if no appendable object takes the number of the object it replaces, and no callback raises after it has changed something |
| `DatabaseRuns.Run` | testbench/store.py:17-25 | after any run from an empty database, with arbitrary callbacks, soft delete and restore, replaying the notifications gives exactly the buckets, generations, live generations and folders, as long as that holds of every step |
| `DatabaseRuns.RestoredNumberReused` | testbench/database.py:674-681 | a run in which it does not: insert, delete, restore, and the next number handed out is the restored one |
| `DatabaseRuns.RaisedBucketUpdateUntold` | testbench/grpc_server.py:467-492 | a run in which it does not: a bucket update that merges a value and then finds it invalid |
| `DatabaseRuns.RaisedObjectUpdateUntold` | testbench/grpc_server.py:1027-1062 | the same for an object update |
| `Pathing.EscapeInverse` | testbench/pathing.py:64-71 | unescaping an escaped name gives the name |
| `Pathing.SplitEscape` | testbench/pathing.py:64-67 | escaping and splitting into segments commute |
| `Pathing.SidecarNames` | testbench/filestore.py:438-450 | sidecars are told from media by name, and stripping the suffix leads back to the media path |
| `Pathing.LayoutIsCollisionFree` | testbench/pathing.py:51-87 | media and sidecar paths of all names are pairwise distinct |
| `Pathing.NaturalPathsAreContained` | testbench/pathing.py:51-61 | natural paths have no `.` or `..` component and stay out of `.gcs`, but for the name `.gcs` itself |
| `Pathing.LayoutDecided` | testbench/pathing.py:51-87 | a name is kept under its digest if and only if it begins or ends with a slash, has a NUL, begins with `.gcs/`, ends with `.gcsmeta`, or has a segment that is `.` or `..` or over 255 bytes; any other under the path of its escaped segments, which lead back to it |
| `Pathing.Utf8Counts` | testbench/pathing.py:58-60 | as many bytes as characters if and only if all of them are ASCII, and at most four times as many |
| `Layouts.NaturalNamesNest` | testbench/filestore.py:140-146 | a natural name's media or sidecar path is on the way to another's if and only if the other name begins with it and a slash |
| `Layouts.LayoutOf` | testbench/filestore.py:140-146 | names that are compatible in this sense have slots no file of which is a directory of another |
| `Fitting.FitsExactly` | testbench/filestore.py:192-233 | in any reachable world in which a bucket has a live object under every one of some compatible names, the insert of bytes under one more name succeeds if and only if the names with it are compatible |
| `Fitting.UnstorableRefused` | testbench/filestore.py:140-146 | on a tidy tree the insert of a name with an empty path component, or of the name `.gcs`, fails, whatever media it has to put there |
| `Fitting.FileOnTheWay` | testbench/filestore.py:192-207 | a file on the way to a name stops its insert, on any tree |
| `Fitting.DirectoryInPlace` | testbench/filestore.py:208-230 | a directory in the place of a name's media or sidecar stops its insert, on any tree |
| `Asides.SoftDeletes` | testbench/filestore.py:290-311 | a soft delete moves the inode under the directory of its generation, with a sidecar that has the metadata, takes both names of the live object, and leaves every other name where it led |
| `Asides.PurgeTakes` | testbench/filestore.py:313-318 | a purge takes exactly what is below the directory of that generation |
| `Asides.FolderKept` | testbench/filestore.py:368-387 | a folder's envelope carries its name, under a path no other folder has; removing it takes that name only |
| `Asides.FolderMoves` | testbench/filestore.py:327-336 | a rename takes the old envelope and writes the new one, in the bucket of the old name |
| `Asides.TellShows` | testbench/filestore.py:110-351 | whatever notification the store carries out shows on the disk: the bucket's label, the object's sidecar and its bytes, the names that are gone, the soft-deleted copy, the folder's envelope |
| `Asides.Places` | testbench/filestore.py:155-163 | where in the reserved directory uploads, soft-deleted generations, folders and the bucket's label are; no two generations share a directory |
| `Media.BytesMedia.Append` | testbench/media.py:63-66 | the contents grow by the data and both rolling checksums stay true |
| `Media.BytesMedia.GetChunks` | testbench/media.py:92-97 | the loop yields the chunks of the byte string |
| `Checksums.Crc32cChains` | testbench/filemedia.py:186 | the checksum of a concatenation continues from the checksum of its first part |
| `Checksums.CheckValue` | testbench/filemedia.py:186 | the checksum of the digits from 1 to 9 is 0xE3069283, the check value of CRC32C |
| `Bytes.ChunksCover` | testbench/media.py:92-97 | the chunks of an in-bounds range concatenate to it, and none is empty or over-long |
| `Bytes.SliceBounds` | testbench/media.py:57-61 | negative bounds of a slice count from the end, over-long ones stop at the ends, crossed ones give nothing |
| `FileMedia.AppendAdds` | testbench/filemedia.py:180-187 | an append adds exactly the data to the media's inode, keeps its checksums true, and touches no other inode |
| `FileMedia.EndsKeepBytes` | testbench/filemedia.py:193-232 | promotion and sealing end the growth and keep every byte readable |
| `FileMedia.Recompute` | testbench/filemedia.py:157-167 | the bounded recomputation pass gives the checksums of the whole file |
| `FileMedia.PreadReader.ReadInto` | testbench/filemedia.py:34-42 | a read returns the next bytes from the reader's own position |
| `FileMedia.Drain` | testbench/filemedia.py:121-128 | reading to the end in pieces of any size gives the whole media |
| `FileMedia.FileMedia.NewStaging` | testbench/filemedia.py:169-177 | a staged media is empty and reads what is appended if and only if its name was free or named an empty file |
| `FileMedia.FileMedia.Append` | testbench/filemedia.py:180-187 | the contract of the in-memory media; a media that is no longer staged refuses |
| `FileMedia.FileMedia.Finalize` | testbench/filemedia.py:193-207 | the file moves to its destination and the contents stay |
| `FileMedia.FileMedia.LinkInto` | testbench/filemedia.py:209-218 | the destination becomes a second name and the media stays staged |
| `FileMedia.FileMedia.Seal` | testbench/filemedia.py:220-232 | the staging name goes and the contents stay |
| `FileMedia.FileMedia.GetSlice` | testbench/filemedia.py:106-112 | a slice with any bounds, negative or over-long, is that of the byte string |
| `FileMedia.FileMedia.GetChunks` | testbench/filemedia.py:114-119 | the chunks of the byte string if and only if no chunk starts past the end, and an error otherwise |
| `FileMedia.LastChunkDecides` | testbench/filemedia.py:114-119 | the start of the last chunk decides which |
| `MediaRuns.Converse` | testbench/media.py:15-27 | over any sequence of appends, slices, in-bounds chunked reads, checksum requests, and readers opened and read at any time, also after later appends, the two backends answer alike |
| `FileStore.FileStore.InsertBucket` | testbench/filestore.py:110-124 | the calls make the bucket's tree and sidecar, or fail as foreseen |
| `FileStore.FileStore.UpdateBucket` | testbench/filestore.py:126-132 | the bucket's sidecar is rewritten, or the first failure |
| `FileStore.FileStore.DeleteBucket` | testbench/filestore.py:134-137 | every name in the bucket goes; other buckets, inodes, open descriptors and media stay |
| `FileStore.FileStore.Clear` | testbench/filestore.py:532-536 | bucket after bucket in any order, all trees go; open media stay as they were |
| `FileStore.FileStore.InsertObject` | testbench/filestore.py:192-233 | directories, collision guard, bytes and sidecar in that order, or the first failure |
| `FileStore.FileStore.UpdateObject` | testbench/filestore.py:251-280 | a media that no longer grows is sealed, and the sidecar rewritten |
| `FileStore.FileStore.DeleteObject` | testbench/filestore.py:282-288 | both names of the object go |
| `FileStore.FileStore.SoftDeleteObject` | testbench/filestore.py:290-311 | the media moves to the directory of its generation, a sidecar is written there, and the old one goes, or the first failure |
| `FileStore.FileStore.PurgeObject` | testbench/filestore.py:313-318 | the directory of that generation goes with all that is below it, and no other name |
| `FileStore.FileStore.NewUploadMedia` | testbench/filestore.py:155-163 | a staged media under `.gcs/uploads`, numbered next |
| `FileStore.FileStore.DeleteUpload` | testbench/filestore.py:170-176 | the staging name of a cancelled upload goes; no other name, no inode, no descriptor and no media is touched |
| `FileStore.FileStore.Append` | testbench/filemedia.py:180-187 | a staged media of the table grows on its own inode, seen through every name of it; a media that is not staged refuses |
| `StoreSteps.InsertsBytes` | testbench/filestore.py:223-230 | on a tidy tree an insert from memory cannot fail, gives its name an entry on a new inode, and leaves every other name, label and staging file alone |
| `StoreSteps.InsertsLinked` | testbench/filestore.py:208-220 | the same for an appendable object, whose entry is on the staged inode and whose staging name stays |
| `StoreSteps.InsertsPromoted` | testbench/filestore.py:221-222 | the same for a finished upload, whose staging name goes |
| `StoreSteps.Updates` | testbench/filestore.py:276-280 | an update changes the metadata of one entry and no bytes |
| `StoreSteps.UpdatesSealing` | testbench/filestore.py:270-280 | the update that finalizes also takes the staging name, and nothing else |
| `StoreSteps.Deletes` | testbench/filestore.py:282-288 | a delete takes exactly one entry |
| `StoreSteps.Stages` | testbench/filestore.py:155-163 | a new upload is an empty file on an inode of its own that no entry shows |
| `StoreSteps.InsertsBucket` | testbench/filestore.py:110-124 | a new bucket is a tidy tree without entries under its own label |
| `Rebuild.HydrateMedia` | testbench/filestore.py:452-489 | trusted or recomputed checksums over the described file, or no bytes if it is missing |
| `Rebuild.ScanBucket` | testbench/filestore.py:418-450 | in any order of files, the scan stops if and only if a sidecar does not load or two names share an inode; otherwise it holds exactly what the sidecars say |
| `Rebuild.RebuildIndex` | testbench/filestore.py:388-407 | the whole scan, with the same if and only if over all buckets |
| `Rebuild.TidyIsClean` | testbench/filestore.py:491-510 | nothing stops the scan of a tidy tree |
| `Rebuild.ScanDecided` | testbench/filestore.py:418-450 | read off the file names: nothing stops the scan of a tree if and only if every sidecar loads over media or nothing, and no two sidecars of different names describe one inode |
| `Rebuild.ScanRecovers` | testbench/filestore.py:418-450 | the scan of a tidy tree finds exactly its entries, one generation per name |
| `WorldRuns.StepSound` | testbench/store.py:34-38 | from a sound world no step in scope makes the store fail after the index has changed, and every step leads to a sound world |
| `Restart.RunSound` | testbench/filestore.py:192-288 | over every run in scope, updates that raise included, the store never fails and the tree mirrors the index: every live object has its files, over its own bytes, under the metadata that the store was last told |
| `Restart.RunAndRestart` | testbench/filestore.py:388-510 | after any run the startup scan gives the same bucket and live names, each bucket and object with the metadata that the store was last told and with its own bytes; the checksums are right if and only if that metadata is, and if it is the object's own, if and only if some length was recorded or there are no bytes; what is on disk stays as it was |
| `Survival.StoreAndRestart` | testbench/filestore.py:388-510 | any run, an insert of bytes, any run that leaves the name alone, and a restart: the name is live with exactly those bytes, their length and checksums, and the attributes of the insert |
| `Survival.StoredStays` | testbench/filestore.py:192-288 | what is stored under a name, in the index and in both files, stays over any run without a request for that name |
| `Survival.StepElsewhere` | testbench/database.py:523-700 | no step but a request for a name changes the live object under it, or what the store was last told of it |
| `Requests.InsertStores` | testbench/database.py:544-546 | an insert of bytes stores those bytes under the name, in the index and on disk, with their length and checksums, the attributes of the request and a new number |
| `Requests.FinishStores` | gcs/object.py:130-196 | the end of an upload does the same for all that the upload has received |
| `Requests.PatchStores` | gcs/object.py:314-320 | a patch leaves the new attributes, the same bytes and checksums and the next metageneration, on disk too; one that raises leaves the attributes in the index only |
| `Requests.StartStores` | gcs/upload.py:326-352 | an appendable upload starts with no bytes, unfinished, with the first handle and the attributes of the request, or is refused over an unfinished object |
| `Requests.CheckpointStores` | gcs/upload.py:622-657 | a checkpoint changes the length and the checksum, to those of the bytes received, and nothing else |
| `Requests.EndStores` | gcs/upload.py:681-713 | the end changes the length and the finalized mark, and nothing else of the metadata |
| `Requests.TakeOverStores` | gcs/upload.py:448-461 | a takeover changes the handle of a live object, to the next, and nothing else |
| `Requests.DeleteStores` | testbench/filestore.py:282-288 | after a delete of the live object the name has none, and neither of its files is there |
| `Requests.BucketStores` | testbench/database.py:129-138 | a new bucket is in the index and on disk, without objects; a taken name is refused |
| `Requests.BucketChanges` | testbench/database.py:630-645 | an update leaves the new value in the index, and on disk exactly if the callback returned |
| `Requests.BucketGoes` | testbench/database.py:215-231 | a bucket goes from the index and the disk exactly if it has no live object |
| `Requests.AppendStores` | testbench/filemedia.py:180-187 | an append adds exactly its data to its media, and nothing to any other |
| `Placing.StepPlaced` | testbench/filestore.py:138-153 | no step takes away a directory on the way to an object, live or not, that is in the index |
| `Appendables.NamesShareInode` | testbench/filemedia.py:209-218 | while an object is being written its staging name and its own lead to one inode |
| `Appendables.CheckpointAgrees` | gcs/upload.py:622-657 | after a checkpoint the destination file, the object's media and the upload's hold the same bytes, and the metadata has their length and checksum |
| `Appendables.FinishAgrees` | gcs/upload.py:681-713 | after the last update the same bytes are under the object's name only, the length is recorded, the staging name is gone, and the checksum is that of the bytes if and only if the last checkpoint's was |
| `Appendables.CheckpointThenFinish` | gcs/upload.py:622-713 | a finish right after a checkpoint records the length and the checksum of all the bytes |
| `Snapshots.EventKeeps` | testbench/filestore.py:110-351 | no notification, for whatever bucket, generation or folder, soft deletes and purges included, no update that raised, and no upload event takes bytes from a media or lets a settled one grow; the media of an object without an upload is settled |
| `Snapshots.SoftDeleteCarries` | testbench/filestore.py:290-311 | moving the media of a soft-deleted object and writing its sidecar anew takes no bytes from any media, and lets none grow that was settled |
| `Snapshots.SettledForGood` | testbench/filestore.py:251-280 | a media whose growth has ended keeps its bytes over any run, and nothing seals it again |
| `Snapshots.SnapshotsHold` | testbench/database.py:494-521 | a snapshot of an object without an upload, live or not, reads the same bytes after any later inserts, overwrites, updates, deletes, renames and clears |
| `Snapshots.BytesOnlyGrow` | testbench/filemedia.py:180-187 | over any run a media stays on its inode, and what it holds is a prefix of what it holds later |
| `Writers.StepMoves` | gcs/upload.py:442-477 | no operation on any generation of any bucket, but a restore under that very number and a new object that is given it, brings a generation back, reopens it, or takes its handle down |
| `Writers.TakeOverFences` | gcs/upload.py:448-467 | a takeover of any unfinalized generation puts the last handle out of date if and only if the generation is the live one; then it issues the next handle and every earlier one is out of date, and otherwise nothing changes |
| `Writers.TakeOverFencesNobody` | gcs/upload.py:452-453 | a run in which it is not: after the takeover of an overwritten object its old handle still opens it |
| `Writers.FencedForGood` | gcs/upload.py:468-477 | a stream that presents a handle out of date is refused after any later run that does not restore that very number or give it to a new appendable object |
| `Writers.RestoreFences` | testbench/database.py:664-681 | after a restore of that number the handle is still out of date if and only if the copy is finalized or has a later handle |
| `Writers.RestoreReopens` | testbench/database.py:664-681 | a run in which it is not: the handle of a deleted object opens the object restored under its number |
| `Writers.NumberFences` | testbench/database.py:674-681 | after a new object is given that number a handle of at least 1 is still out of date if and only if the object is inserted whole, or the appendable insert is refused |
| `Writers.NumberReopens` | testbench/database.py:674-681 | a run in which it is not: an object is restored under the next number, taken over and deleted, and the first handle opens the new object that gets that number |
| `Writers.StartRefused` | gcs/upload.py:326-337 | an appendable insert never replaces an unfinalized live object |
| `Writers.StartOpens` | gcs/upload.py:326-352 | an accepted start makes its number the live one, and exactly the first handle opens it |
| `Writers.FinishCloses` | gcs/upload.py:681-705 | after the last checkpoint no handle opens the number |
| `Writers.DeleteCloses` | testbench/database.py:548-585 | nor does one after a delete whose precondition holds |
| `Writers.WritersThroughout` | gcs/object.py:193-196 | after any run of any operations an object has an upload attached exactly when it is unfinalized, and then a handle of at least 1; so has every soft-deleted copy |
| `Limits.DeleteMustBeLive` | testbench/filestore.py:282-288 | in a sound world a delete request never makes the store fail, and it keeps the world sound if and only if no other generation of the name is live |
| `Limits.UpdateMustBeLive` | testbench/filestore.py:276-280 | nor does an update, which keeps the world sound if and only if it is aimed at the live generation, or finds none |
| `Limits.UpdateResurrects` | testbench/filestore.py:276-280 | of a generation of a name with no live one an update leaves a sidecar without media |
| `Limits.FinishNeedsStaging` | testbench/filemedia.py:193-207 | the insert of a finished upload succeeds if and only if its staging name is still there |
| `Limits.SettledInsertMovesNothing` | testbench/filemedia.py:196-197 | settled media is not put under the name it is inserted under |
| `Witnesses.StoreFallsBehind` | testbench/database.py:623-627 | a run from the start that leaves the store behind on a name |
| `Witnesses.RaisedPatchNotTold` | testbench/grpc_server.py:1027-1062 | a run from the start after which the store was last told other metadata than the live object has |
| `Witnesses.RaisedLabelNotTold` | testbench/grpc_server.py:467-492 | a run from the start after which the store was last told another value of the bucket than it has |
| `Witnesses.OlderGenerationHurts` | testbench/filestore.py:276-288 | a run from the start after which a delete, and an update, of the first of two generations unmake the mirror |
| `Witnesses.UpdateAfterDelete` | testbench/filestore.py:276-280 | a run from the start after which an update leaves a sidecar without media |
| `Witnesses.WrongForGood` | gcs/upload.py:681-713 | a run from the start that finishes an appendable object under a checksum that is not that of its bytes |
| `Witnesses.BytesNotRecorded` | gcs/upload.py:577-618 | a run from the start that leaves bytes of which the metadata says there are none |
| `Witnesses.StagingGoesWithBucket` | testbench/filestore.py:134-137 | a run from the start after which a staged upload cannot be finished, its bucket having been made again |
| `ReadObject.ReadObject` | testbench/grpc_server.py:625-721 | chunks and the conditional trailing response emit the stream of the earlier loop, for every offset, limit and fault; the offset is refused if and only if it is beyond the object, and otherwise the stream delivers the bytes from there on, as many as the limit says, or those of them before the fault |
| `ReadObject.FaultFreeStream` | testbench/grpc_server.py:625-721 | the contents concatenate to the range, and metadata is on the first response only |
| `ReadObject.ResponseCount` | testbench/grpc_server.py:690-721 | there is one response more than full chunks |
| `ReadObject.ChunkSizes` | testbench/grpc_server.py:690-721 | all responses but the last are full chunks, and the last is less than one |
| `ReadObject.FaultedStream` | testbench/grpc_server.py:690-721 | a fault in range delivers exactly the bytes before it, and then aborts |
| `BidiRead.ProcessReadRange` | testbench/grpc_server.py:789-856 | one range is answered contiguously, in increasing offset, by exactly the requested bytes and one last empty item |
| `BidiRead.RangeDecided` | testbench/grpc_server.py:789-812 | a range is satisfiable if and only if its offset is not beyond the object and its length not negative; it asks for the bytes from there on, or the last ones for a negative offset, and no more than a positive length says |
| `BidiRead.ResponsesForRangeBatch` | testbench/grpc_server.py:858-863 | the ranges of a batch are interleaved in turn, each answered whole; if one is refused, the refusal is all that comes of the batch |
| `BidiRead.ReadResults` | testbench/grpc_server.py:865-868 | all batches are answered in order and whole, up to the first with a refused range, of which only the refusal comes |
| `BidiRead.Respond` | testbench/grpc_server.py:870-897 | never more than the budget is delivered; the stream breaks exactly when that much is available, having delivered exactly that and taken one instruction |
| `BidiRead.EachRangeGetsPrefix` | testbench/grpc_server.py:870-897 | whatever the budget cuts, each range has received a prefix of what it asked for |
| `BidiRead.BidiReadObject` | testbench/grpc_server.py:724-897 | the stream breaks if and only if the ranges before the first refused batch ask for the budget or more, and then exactly the budget is sent and one instruction taken; otherwise all they ask for is sent, nothing of the refused batch or later, and it ends with the refusal or completely. Every range receives a prefix of the bytes from its offset on, at most as many as its length says, and all of them before an item that ends it |
| `Rewrite.NormalizeMaxBytes` | gcs/rewrite.py:38-45 | a window is at least 1 MiB: a larger request is honoured, and an absent or smaller one gives exactly that |
| `Rewrite.Rewrite.Call` | testbench/grpc_server.py:1214-1235 | one call appends exactly its window of the source and says whether it was the last |
| `Rewrite.RewriteCompletes` | testbench/rest_server.py:888-906 | with an unchanged source the calls end after exactly max(1, ceil(len / max)) of them with the source copied, each unfinished one having copied more |
| `Rewrite.FinishedCopy` | testbench/grpc_server.py:1214-1235 | with a source that changed, the copy is the source if and only if what was copied before is its prefix |
| `ParseFields.ParseFields` | testbench/common.py:225-255 | the stack machine with its inner pops computes the specification on every text, and always ends |
| `ParseFields.SpacesAreIgnored` | testbench/common.py:225-255 | spaces anywhere make no difference |
| `ParseFields.ExpandPermutesPaths` | testbench/common.py:225-255 | the order in which closing parentheses leave the fields is a permutation of the paths |
| `ParseFields.ParseInvertsPrint` | testbench/common.py:225-255 | parsing the text of any selectors gives exactly their root-to-leaf paths, as a multiset |
| `RestPatch.RestPatch` | testbench/common.py:1280-1314 | in any order of keys the patch is refused if and only if two documents differ in kind somewhere, and otherwise gives what MergePatch (section 2 of RFC 7396) gives |
| `RestPatch.PatchIsIdempotent` | testbench/common.py:1280-1314 | a patch that succeeded is accepted again and changes nothing |
| `RestPatch.PatchedAt` | testbench/common.py:1280-1314 | at every place of the patched document there is the value the patch has there, nothing where the patch has a null, and what was there where the patch says nothing |
| `ListObjects.SortItems` | testbench/database.py:451 | a stable sort by name of the same items |
| `ListObjects.ListObjects` | testbench/database.py:397-452 | the items are the selected objects not rolled up, in order; the prefixes are those of selected objects, strictly increasing |
| `ListObjects.NamesArePartitioned` | testbench/database.py:442-450 | every selected object is an item or covered by a prefix, and both exactly for an included trailing delimiter |
| `ListObjects.ItemsAre` | testbench/database.py:424-450 | an item comes from a selected object, and every selected object that is not rolled up is an item |
| `ListObjects.SelectedDecided` | testbench/database.py:424-441 | exactly the live generations are selected, or all of them if versions or soft-deleted ones are asked for, whose names begin with the prefix, are the first offset or after it, before the last one, and match the pattern |
| `ListObjects.PlainListing` | testbench/database.py:424-452 | without a delimiter those objects are the items, and there are no prefixes |
| `ListObjects.LessDecided` | testbench/database.py:437-440 | the order is by the first character in which two names differ, a beginning before what it begins |
| `ListObjects.RollUpDecided` | testbench/database.py:442-450 | for a delimiter of any length a name is rolled up at its first place after the prefix, into what comes before and one character, unless the name begins with it |
| `ListObjects.PrefixEndsAtDelimiter` | testbench/database.py:442-444 | for a one-character delimiter a prefix ends at its first occurrence after the requested prefix, and there is none exactly when it does not occur or starts the name |

## Left out

- Routing, sockets, stalls, sleeps, logging, bootstrap and the single-worker lock.
- Access control, encryption keys, HMAC keys, object contexts, retention and other metadata checks: metadata beyond size, checksums, generation numbers and the finalized mark is an uninterpreted map.
- Protobuf and JSON renaming, multipart parsing, gzip transcoding and the byte ranges of media downloads.
- ComposeObject (appends of whole sources to a staged media), the REST copy and rewrite handlers, and objects patched without telling the store.
- A first message repeated in the middle of a gRPC stream, redirect instructions, and the checksums a client declares for the whole object.
- Two streams at once on an upload that was finalized: the file backend raises and the in-memory one goes on.
- Appendable uploads resumed by upload id.
- Soft delete and folders in `Worlds` and `Rebuild`: buckets there have no soft-delete policy, and the scan reads live objects only. Both are in the index and its notifications, and `Snapshots` has the calls the store makes for them.
- Runs of `Worlds` that go on after a restart: the recovered objects have no uploads, so an object that was still being written cannot be finished.
- Preconditions in `Worlds`: a refused operation changes nothing and tells the store nothing, which is proved of the class `Database`.
- FileStore.FileStore.InsertObject: after a failure half-way it says which failure, not what is left on disk.
- FileStore.FileStore.UpdateObject: likewise.
- FileStore.FileStore.InsertBucket: likewise.
- FileStore.FileStore.UpdateBucket: likewise.
- FileStore.FileStore.NewUploadMedia: likewise.
- Runs of `Worlds` and `Snapshots` after a failure: a run of `Worlds` in scope has none, and a run of `Snapshots` ends with one.
- Cancelled uploads in `Worlds`: `FileStore.FileStore.DeleteUpload` takes a staging name, and so does an event of `Snapshots`, but no step of `Worlds` does.
- Symbolic links, name length limits of the operating system, case-insensitive file systems, temporary names of atomic writes, fsync, and the closing of media by the garbage collector.
- A file whose content is of another kind than its name says, such as a sidecar in the place of media, is reported as corrupt by the model; the store never makes one.
- Bucket name validation, and the short and full forms of bucket names, which are identified.
- Rewrites and upload ids left behind: their staging files stay on disk in the model as in the source.
- Preemption inside a locked operation.
