# Verified model of the stateful cores of Nekomari

This Dafny project models the parts of Nekomari whose correctness depends on order, interleaving or arithmetic, and
proves what they promise. `dafny verify dfyconfig.toml` checks all of it.

| Modules | What they model |
|---|---|
| `ChunkGeometry`, `UploadLifecycle`, `UploadLifecycleTable`, `UploadProtocol`, `UploadStore`, `UploadRefinement`, `UploadSessions`, `UploadCancel`, `PartNames`, `UploadPitfalls`, `UploadCollisions` | the agent's chunked upload: concurrent streams, commits and cancels over shared tables and files |
| `EditDistance`, `Masking` | the fuzzy masker of private words |
| `Manifest`, `TarFormat`, `TarArchive`, `TarReading` | the reader of encrypted backups: names, manifest, ustar headers, archives, extraction |
| `EventDelivery` | events and acknowledgements on the POST fallback |
| `SessionCache`, `SessionActivity` | the panel's session cache and its activity coalescing |
| `RouteProbe` | the daily route probe and its crash-safe reservation |
| `TerminalSessions`, `TerminalTable` | reattachable terminal sessions |
| `Motd` | the warning block in the message of the day |
| `ResetDate` | billing reset dates |

How the concurrent cores are modelled: every section under a mutex, every file system call and every delivered piece of
a body is one atomic step, and steps of different processes interleave freely. Each section is a function or a relation
on values, and a class method with the source's fields, branches and loops is proved against it; whole runs are then
reasoned about on the values. Time is an input. Where a section iterates over a Go map, the method picks elements in an
arbitrary order.

## What is shown

* **Upload.** Over every interleaving of streams, commits and cancels (any order of chunks, duplicates, bodies cut short
  and retried), a commit that gets as far as its rename leaves the target equal to the source, byte for byte, and the
  target stays so, past the end of the commit, until some commit renames to the same path (`CommittedFileIsSource`).
  This needs five conditions on the run: streams deliver pieces of the source; no stream of the upload begins while a
  commit or cancel of it is between its wait and its end; no commit fails after its rename; upload ids hold no dot and no
  slash; and no commit's target has a base name like `.f.komari-upload-B.part`. The first says what the source is. None
  of the other four can be left out: for each, `EachConditionIsNeeded` gives a run under the source's own names that keeps
  all but this one and commits wrong bytes (a stream that begins between rename and deletion, a retry after a failure
  behind the rename, two ids that share a part file because of a dot, a target that is another upload's part file). There
  are runs that keep all five and commit (`BenignUploadsCommit`). The exclusion of `uploadWriteLock` is not relied on.
* **Upload sessions.** A stream enters an unknown upload only as a `first` one; otherwise it fails and touches nothing
  (`UnknownNeedsFirst`). So every session in the table was made by a first stream of its upload, and without a request
  that says `first` there is none (`SessionsComeFromFirst`, `SessionNeedsFirstRequest`); and of all steps of streams only
  entering such a one empties a file (`OnlyFirstEmpties`). A begin is refused exactly while its upload is entombed
  (`BeginExactly`), a wait blocks exactly while streams are outstanding (`WaitExactly`), and fifteen minutes after the
  last cancel an upload can begin again (`BeginsAgain`).
* **Names.** A part file's path gives back its directory, the name of its target and its upload id when ids are plain
  (`PartPathIsInjective`), and a path is in the way of no part file exactly when it is not shaped like one
  (`AsideExactly`).
* **Cancel.** Once a cancel has finished, and for fifteen minutes from its tombstone, there is no session, no running
  stream and not the part file that it removed, and no stream can begin (`CancelledUploadStaysAway`). Of the run only the
  two conditions on names are assumed, and neither can be left out (`EachNameIsNeededForCancel`). In benign runs the part
  file of the cancelled path and id is absent, whether there was a session or not (`CancelledPartIsAbsent`). Every
  registered stream is called; a stream stays registered unless another begins under the same stream id, so with distinct
  stream ids a cancel calls every outstanding stream that has one (`CancelReachesAllStreams`).
* **Masking.** The rolling-array Levenshtein distance is the length of a shortest edit script, hence a metric; the masker
  hides exactly the union of the close windows. Each maximal hidden run is printed as eight stars, between its own first
  and last rune exactly when it is longer than five (`HiddenRunIsStars`), and no inner rune of it reaches the output:
  texts that are hidden alike and agree on what is printed of them give the same output (`SecretsDoNotShow`).
* **Backups.** The reader accepts a byte string exactly when it is the manifest entry, the listed entries in order with
  their names, sizes and digests, the terminator and zero padding, and nothing else; what a ustar writer emits is read
  back; the byte limit never refuses an archive; extraction never meets a file or directory in its way. Headers and
  manifests are characterised on their bytes and fields: a block is a header exactly when its checksum, mark, type, size
  and names are as they must be (`HeaderExactly`), one changed byte outside the checksum field makes it none
  (`DamagedHeaderIsRefused`), and a document is a manifest exactly when it describes a sound list of files
  (`ManifestExactly`), as the writer's does (`MadeManifestIsAccepted`).
* **Events.** An event is let through again exactly when the last time for its id was more than ten minutes before, or
  4096 other ids were newly seen since (`NewAgainExactly`). Every event of a response is processed once, in order
  (`ResponseIsProcessed`), and exactly the accepted or remembered ones are listed for acknowledgement
  (`HandledEventIsListed`); no acknowledgement is lost or invented.
* **Sessions.** An answer is at most 30 s old, or 10 s if negative, and says what the tables held: a session that is
  handed out stood there with its user (`AnswersStood`), and a call that misses the cache gets what is there
  (`MissAnswersFromTables`). Once the removal of a user has finished, no session of the user is handed out unless a load
  had found it before (`RemovedUserIsGone`). Revocation is not immediate under every interleaving,
  although `forgetSession` is commented so: `RevocationCanBeOvertaken` is a run in which a record queried before a delete
  is stored after it. In every reachable state without the session, it can still be handed out, while it stays gone,
  exactly when some load has found it and not stored it yet, or the cache holds it, up to date with the users and still
  alive for some caller (`RevokedCanBeHandedOutExactly`). So a finished revocation was immediate exactly when no load of
  the token was in between its query and its store at that moment (`RevocationIsImmediateExactly`).
  `StorePanicsExactly` says when the second section of a load writes into a nil map, which panics: when
  `forgetAllSessions` ran since the first section, nothing made a new map since, and the users' revision is unchanged.
* **Activity.** The clock is read before the lock is taken, so calls need not come to the lock in the order of their
  readings. A touch writes exactly when its reading is a minute or more after that of the last write for its token, or
  since then the timestamp was pushed out of a full map, taken back by a failed write, or pruned as old by a call with a
  later reading (`WritesAreCoalesced`, on any clock). Each of the three happens (`FullMapAllowsSecondWrite`,
  `EarlierFailureAllowsSecondWrite`, `LaterReadingAllowsSecondWrite`).
* **Probes.** Two probes of the same targets are 24 hours apart, or a probe of other targets was reserved between them,
  wherever calls are cut off and even if the clock goes back (`ProbesAreADayApart`); with targets that do not change they
  are always 24 hours apart. With a call for other targets in between they can follow each other at once
  (`OtherTargetsAllowSecondProbe`). `CallsProbeExactly` says when a call after a reservation probes; otherwise it answers
  from the file, with the results of a completed call (`CompletedCallAnswers`) or the records of an interrupted one
  (`InterruptedCallAnswers`), or refuses a file that it cannot use (`DecidesExactly`).
* **Terminals.** Each PTY is closed at most once; until then a process owns it, its session is in the table, or a process
  that took the session out will close it. Each session gets exactly one reader. A listed session is not removed; with a
  connection it has no timer ticking, and without one its own timer ticks or a close of it is under way. A timer that has
  already fired can still close a session that was just rejoined (`FiredTimerClosesRejoinedSession`); a joined session
  can be taken away like this exactly when a close of it is under way at the join (`JoinedSessionIsTakenExactly`). A
  connection that a join has replaced never detaches anything, however late it tries
  (`ReplacedConnectionDetachesNothing`), and a session that loses its own connection is closed by its timer
  (`AbandonedSessionIsClosed`).
* **Message of the day.** The text around the block survives any run of installations, appends, clean stops and crashes
  that keeps three conditions: no host or user holds the start marker, no append brings one in, and no installation finds
  half a marker at the end of the text (`UserTextIsConserved`). In every state that such a run reaches, an event keeps its
  condition exactly when every way to go on that keeps the conditions conserves the text (`CareIsNeededExactly`). For the
  third this means: half a marker at the end of the text is completed by some later append, and after the clean stop no
  start succeeds (`HalfMarkersMatter`). A clean stop after a crash and a restart brings the block of the crashed run back
  (`InterruptedBlockComesBack`).
* **Reset dates.** The result is the latest reset date not after the given time, over all months, on a calendar that is
  the civil one in closed form (`FirstDayIsCivil`).

## Model

| member | source | states |
|---|---|---|
| ChunkGeometry.ParseAcceptsExactly | agent/server/file_stream.go:347-384 | In wrapping 64-bit arithmetic a spec is accepted exactly when the exact, unbounded geometry holds; an overflow always leads to rejection. |
| ChunkGeometry.ChunksPartition | agent/server/file_stream.go:373-382 | Every chunk is a non-empty range of the file, and every byte position of the file lies in exactly one chunk. |
| ChunkGeometry.CommitAgreesWithStreams | agent/server/files.go:545-550 | For the same size and chunk size the commit accepts exactly the chunk count that the streams accept. |
| ChunkGeometry.CommitCountIsExact | agent/server/files.go:650-662 | A commit's geometry passes exactly when its count is the true number of chunks, size and chunk size are in range and the rounding up does not overflow. |
| UploadLifecycle.ReachableStatesAreConsistent | agent/server/file_stream.go:237-345 | In every reachable state `active` is the number of outstanding streams, the idle channel is closed exactly when it is 0, an entry with active streams stays, and every entry is active or a tombstone. |
| UploadLifecycle.StepKeepsInv | agent/server/file_stream.go:266-286 | Every section keeps this, and no end closes a channel that is closed. |
| UploadLifecycle.NoBeginWhileTombstoned | agent/server/file_stream.go:242-255 | After a cancel, whatever events follow, no stream of the id begins for 15 minutes and the outstanding ones only become fewer. |
| UploadLifecycle.BeginExactly | agent/server/file_stream.go:242-255 | In every consistent state a begin succeeds exactly when its upload is not cancelled, or was cancelled fifteen minutes ago or more and has no outstanding stream. |
| UploadLifecycle.BeginsAgain | agent/server/file_stream.go:336-345 | Fifteen minutes after the last cancel, whatever happened since, an upload without outstanding streams can begin again. |
| UploadLifecycle.WaitExactly | agent/server/file_stream.go:289-307 | In every consistent state a wait blocks exactly while streams of its upload are outstanding, on a channel that is open. |
| UploadLifecycle.PruneExactly | agent/server/file_stream.go:336-345 | A prune removes exactly the tombstones that are fifteen minutes old and have no outstanding stream. |
| UploadLifecycle.CancelCallsEveryStream | agent/server/file_stream.go:324-333 | A cancel calls exactly the outstanding streams with an id, when all of them are registered. |
| UploadLifecycle.RegistrationSurvivesExactly | agent/server/file_stream.go:260-273 | A step keeps all streams registered exactly when it does not successfully begin one under a stream id in use. |
| UploadLifecycle.CancelReachesAllStreams | agent/server/file_stream.go:324-333 | In every run with distinct stream ids, a cancel at any time calls every outstanding stream of its upload that has an id. |
| UploadLifecycleTable.UploadLifecycles.Prune | agent/server/file_stream.go:336-345 | The loop deletes exactly the idle tombstones whose time is over. |
| UploadLifecycleTable.UploadLifecycles.Begin | agent/server/file_stream.go:237-263 | On shared records the section has the effect and outcome of the function `Begin`. |
| UploadLifecycleTable.UploadLifecycles.End | agent/server/file_stream.go:266-286 | The ending closure has the effect of the function `End`, given that it closes no closed channel. |
| UploadLifecycleTable.UploadLifecycles.Wait | agent/server/file_stream.go:289-307 | One turn of the wait loop has the effect and outcome of the function `Wait`. |
| UploadLifecycleTable.UploadLifecycles.Cancel | agent/server/file_stream.go:309-334 | A cancel has the effect of the function `Cancel` and collects its cancel functions. |
| UploadStore.WritesCompose | agent/server/file_stream.go:515-519 | Two writes at advancing offsets are one write of both pieces. |
| UploadStore.OffsetFileWriter.Write | agent/server/file_stream.go:510-519 | A write puts the bytes at the offset and advances it by what was written. |
| UploadStore.CopyBody | agent/server/file_stream.go:462-473 | In whatever pieces a body arrives, the file gets its first `expected` bytes at the chunk's offset. |
| UploadStore.Uploads.EnterStream | agent/server/file_stream.go:406-456 | The first section finds or makes the session, checks it and names the part file, as the function `Enter` says. |
| UploadStore.Uploads.RecordChunk | agent/server/file_stream.go:482-502 | The last section adds the chunk to the session, or reports that the session is gone. |
| UploadStore.Uploads.CheckCommit | agent/server/files.go:674-705 | The commit's checks succeed or fail as the function `CheckCommit` says, in its order. |
| UploadStore.Uploads.RemoveSession | agent/server/files.go:573-619 | A cancel that finds a session removes part file and session, or refuses another target. |
| UploadSessions.UnknownNeedsFirst | agent/server/file_stream.go:406-434 | A stream of an unknown upload enters only as a first one; otherwise it fails and sessions and files stay as they are. |
| UploadSessions.FirstMakesSession | agent/server/file_stream.go:408-429 | A first stream of an unknown upload makes its session with its values and no chunks, and an empty part file, and nothing else. |
| UploadSessions.KnownMustFit | agent/server/file_stream.go:435-456 | A stream of a known upload changes nothing and enters exactly when target, size, chunk size and count fit the session. |
| UploadSessions.RecordsExactly | agent/server/file_stream.go:482-502 | A finished chunk is added to its session, which takes over the values of the stream; an unknown session is reported. |
| UploadSessions.CommitAcceptedExactly | agent/server/files.go:638-662 | A commit is looked at exactly when it has an id, a path that can be a file, and the true chunk count of a size and chunk size in range. |
| UploadSessions.CommitPassesExactly | agent/server/files.go:674-705 | A commit passes its checks exactly when its session is there and fits, as many chunks as the count are recorded, and a part file is known. |
| UploadSessions.CancelRemovesExactly | agent/server/files.go:573-619 | A cancel for another target is refused and changes nothing; any other removes the session and its part file and no more. |
| UploadSessions.SessionsComeFromFirst | agent/server/file_stream.go:408-434 | In every run, every session in the table was made by a first stream of its upload and has been there since. |
| UploadSessions.SessionNeedsFirstRequest | agent/server/file_stream.go:408-434 | An upload has a session only if a stream of it was asked for as a first one. |
| UploadSessions.OnlyFirstEmpties | agent/server/file_stream.go:408-429 | Of the steps of streams, only the entering of a first one of an unknown upload shortens a file, and it is its own part file. |
| UploadRefinement.StepKeepsContent | agent/server/files.go:664-749 | Every event of a benign, well named run keeps: each recorded chunk has its slice on disk, each running stream has written its slice so far, and each commit past its checks holds the whole source. |
| UploadRefinement.CompleteSessionHoldsSource | agent/server/files.go:696-700 | As many recorded chunks as the count means all of them, so the part file starts with the whole source. |
| UploadRefinement.CommittedFileIsSource | agent/server/files.go:638-749 | Over every benign, well named run, a commit's rename leaves the target with the first total bytes of the source, all of it when the total is its length, and through every benign, well named continuation it stays so until a commit renames to that path. |
| UploadPitfalls.LateStreamSpoilsNextCommit | agent/server/files.go:735-743 | For any names and any upload of two bytes, the first not zero: a run in which a stream begins between a commit's rename and its deletion of the session, and the next commit succeeds with a wrong file. |
| UploadPitfalls.LateFailureSpoilsRetry | agent/server/files.go:735-740 | For any names and any upload of two bytes, the first not zero: a run in which a commit fails after its rename, one chunk is sent again, and the retried commit succeeds with a wrong file. |
| UploadCollisions.SharedPartFileSpoils | agent/server/file_stream.go:418-429 | Wherever two uploads have the same part file, a run commits the bytes of one to the target of the other. |
| UploadCollisions.TargetAsPartFileSpoils | agent/server/files.go:735 | Wherever an upload's target is another upload's part file, a run makes that other upload commit the bytes of the first. |
| UploadCollisions.SharedPartFileUndoesCancel | agent/server/file_stream.go:418-429 | Wherever two uploads have the same part file, a stream of one brings back what a finished cancel of the other removed. |
| UploadCollisions.TargetAsPartFileUndoesCancel | agent/server/files.go:735 | Wherever an upload's target is another upload's part file, its commit brings back what a finished cancel of the other removed. |
| UploadCollisions.EachConditionIsNeeded | agent/server/files.go:638-749 | For each of the four conditions on begins, failures, ids and targets there is a run under the source's names that keeps all others and commits wrong bytes. |
| UploadCollisions.EachNameIsNeededForCancel | agent/server/files.go:587-633 | For each of the two conditions on names there is a run that keeps the other, is benign, and undoes a finished cancel. |
| UploadCollisions.BenignUploadsCommit | agent/server/files.go:638-735 | There is a benign, well named run from an empty file system that gets as far as a commit's rename. |
| UploadCancel.CancelledUploadStaysAway | agent/server/files.go:587-633 | In every state reachable by well named events, within 15 minutes of a finished cancel: no session, no running stream, no removed part file, and no stream can begin. |
| UploadCancel.CancelledPartIsAbsent | agent/server/files.go:608-632 | Over every benign, well named run, within 15 minutes of a finished cancel of an id with a path, the part file of this path and id does not exist. |
| PartNames.PartNameIsInjective | agent/server/files.go:552-559 | With ids free of dots, two part file names are equal exactly when target names and ids are. |
| PartNames.PartPathIsInjective | agent/server/files.go:552-559 | With plain ids, two part file paths are equal exactly when directories, target names and ids are. |
| PartNames.PartPathIsSpelled | agent/server/files.go:552-559 | The part file lies beside the target, hidden, and is named after the target and the id, or `upload` and the id. |
| PartNames.AsideExactly | agent/server/files.go:552-559 | A path is no part file of any target and plain id exactly when its base name is not shaped like one. |
| PartNames.DottedIdsCollide | agent/server/files.go:558 | With dots in ids, uploads to two different targets can share a part file. |
| PartNames.TargetCanBePartFile | agent/server/files.go:558 | With plain ids, the target of one upload can be the part file of another. |
| EditDistance.DistIsShortestPathLength | utils/utils.go:116-145 | The recursive distance is the length of a shortest script of single insertions, deletions and replacements. |
| EditDistance.DistSymmetric | utils/utils.go:116-145 | The distance is symmetric. |
| EditDistance.DistZeroIffEqual | utils/utils.go:116-145 | The distance is zero exactly for equal texts. |
| EditDistance.DistTriangle | utils/utils.go:116-145 | The triangle inequality. |
| EditDistance.DistBounds | utils/utils.go:116-145 | The distance lies between the difference of the lengths and the longer length. |
| EditDistance.MinInt | utils/utils.go:147-155 | The result is one of the values and none is smaller. |
| EditDistance.FillRow | utils/utils.go:128-141 | The inner loop turns a row of prefix distances into the next row. |
| EditDistance.Levenshtein | utils/utils.go:116-145 | The two-row rolling array computes the recursive distance. |
| Masking.CollectWords | utils/utils.go:19-36 | The words are the distinct non-blank trimmed ones, each once. |
| Masking.TrimSpaceSplits | utils/utils.go:20 | A text is its trimmed form with nothing but space before and after it, and the trimmed form has none at its ends. |
| Masking.Similarity | utils/utils.go:98-113 | The similarity reaches 0.8 exactly when five times the distance is at most the longer length. |
| Masking.HitIffFewEdits | utils/utils.go:49-50 | A window is close to a word exactly when some edit script of at most a fifth of its length leads there. |
| Masking.ExactOccurrenceIsMasked | utils/utils.go:38-59 | Every exact occurrence of every word looked for is hidden whole. |
| Masking.AllMasked | utils/utils.go:88-95 | The result says whether every flag of a window is set. |
| Masking.MarkWindows | utils/utils.go:38-59 | A position ends up marked exactly when a close window of some word covers it; skipping marked windows loses none. |
| Masking.RenderConcat | utils/utils.go:61-84 | Texts may be printed apart wherever no hidden run is cut. |
| Masking.MaximalRunIsOneToken | utils/utils.go:71-80 | A maximal hidden run prints as one token between the prints of its two sides. |
| Masking.HiddenRunIsStars | utils/utils.go:71-80 | A maximal hidden run prints as eight stars, with its own first rune before and last rune after them exactly when it is longer than five. |
| Masking.HiddenRunesDoNotShow | utils/utils.go:61-84 | The print depends on the mask, the runes that are not hidden and the ends of hidden runs longer than five, and on nothing else. |
| Masking.SecretsDoNotShow | utils/utils.go:7-85 | Texts that are hidden alike and agree on the runes that are printed give the same output. |
| Masking.UnmaskedIsCopied | utils/utils.go:64-68 | A text with nothing hidden prints as itself. |
| Masking.WriteMasked | utils/utils.go:61-85 | The index-driven loop prints each maximal hidden run as one token and every other rune as it is. |
| Masking.DataMasking | utils/utils.go:7-85 | The output is the print of the input with exactly the union of all close windows hidden; each hidden run is stars in it, with its ends shown exactly when it is longer than five. |
| Masking.OnlyTheSetOfWordsMatters | utils/utils.go:19-36 | Order and repetition of the private words make no difference. |
| Manifest.AllowedNameExactly | deploy/encrypted_backup.py:169-182 | Through the path library's normal form, exactly the names of plain characters whose parts are all normal and in an allowed place are accepted. |
| Manifest.CheckEntries | deploy/encrypted_backup.py:516-533 | The loop accepts a list exactly when names are allowed and distinct, digests well formed, the total within the limit, both databases there, and no name an ancestor of another. |
| Manifest.ParseManifest | deploy/encrypted_backup.py:500-534 | A document is accepted exactly when head, count and entries are as asked, and gives its entries in order. |
| Manifest.ManifestExactly | deploy/encrypted_backup.py:500-534 | A document is accepted with entries exactly when it has the format, a creation time in UTC and an item for each entry, and the entries are 2 to 10000, allowed, distinct, with digests, within the limit, with both databases and none below another. |
| Manifest.MadeManifestIsAccepted | deploy/encrypted_backup.py:278-292 | The document that the writer makes of a sound list is accepted and gives the list back. |
| Manifest.ParentsExactly | deploy/encrypted_backup.py:532 | The ancestors of an allowed name are exactly the paths that it is below. |
| Manifest.CreateAllExactly | deploy/encrypted_backup.py:608-610 | Creating files in order, with their parents, succeeds exactly when the names are distinct and none is an ancestor of another; the tree then holds these files and their ancestors only. |
| Manifest.ExtractionNeverCollides | deploy/encrypted_backup.py:518-533 | Every prefix of an accepted manifest can be created: no file exists already and no directory is needed where a file is. |
| Manifest.ManifestNameIsFree | deploy/encrypted_backup.py:616 | The name under which the manifest is saved is neither an accepted name nor a directory of one. |
| TarFormat.NumberComesBack | deploy/encrypted_backup.py:571-572 | A number in octal digits with blanks after it is what the integer parser returns. |
| TarFormat.HeaderComesBack | deploy/encrypted_backup.py:558-581 | Every header block of the format is read back as its full name and size, whatever the fields that the reader ignores. |
| TarFormat.HeaderExactly | deploy/encrypted_backup.py:570-581 | Every 512-byte block is accepted with a path and a size exactly when the checksum field reads as the sum of the block with blanks there, the size field as the size, the mark and type byte stand in their places and the two name fields hold the path. |
| TarFormat.DamagedHeaderIsRefused | deploy/encrypted_backup.py:575-576 | An accepted header with one byte changed outside its checksum field is refused. |
| TarFormat.NumberExactly | deploy/encrypted_backup.py:571-572 | A numeric field reads as a number exactly when it is an octal number, with an optional sign and mark, between white space and blanks. |
| TarFormat.DigitsComeBack | deploy/encrypted_backup.py:571-572 | Octal digits are the octal form of their value. |
| TarFormat.PlainOctalExactly | deploy/encrypted_backup.py:571-572 | What counts as octal digits: underscores may stand between them, but not at the ends and not next to each other. |
| TarArchive.ReadMembersExactly | deploy/encrypted_backup.py:605-615 | The listed entries are read exactly when they stand at the front, in order, and only the end follows. |
| TarArchive.EndingExactly | deploy/encrypted_backup.py:558-569 | The end is accepted exactly when 1024 to 11264 bytes are left and all are zero. |
| TarArchive.UnpackExactly | deploy/encrypted_backup.py:596-618 | The reader succeeds with an archive exactly when the stream is that archive and nothing else. |
| TarArchive.ArchivesFitTheLimit | deploy/encrypted_backup.py:598 | Every archive whose manifest is accepted is within the byte limit. |
| TarArchive.RoundTrip | deploy/encrypted_backup.py:295-320 | What a ustar writer makes of an accepted manifest and the files it lists is read back as these. |
| TarReading.TarReader.Read | deploy/encrypted_backup.py:544-550 | A read returns what is there, up to the size, and fails exactly when the limit is passed. |
| TarReading.TarReader.Exact | deploy/encrypted_backup.py:552-556 | A read of an exact size fails exactly when the stream or the limit is too short. |
| TarReading.TarReader.Header | deploy/encrypted_backup.py:558-581 | The next header, or the end after nothing but zeros, unless the limit is passed first. |
| TarReading.TarReader.Payload | deploy/encrypted_backup.py:583-593 | The payload read in pieces is the next bytes, and succeeds exactly when it and its zero padding are there and within the limit. |
| TarReading.UnpackEntry | deploy/encrypted_backup.py:606-613 | An entry is accepted exactly when it is the listed one with its digest and nothing is in its way, and is then written under its name. |
| TarReading.UnpackArchive | deploy/encrypted_backup.py:596-618 | With byte limit and directory, the reader succeeds exactly on archives, and the directory then holds the listed files, their directories and the manifest. |
| TarReading.FilesAreTheListedOnes | deploy/encrypted_backup.py:608-616 | After success every listed file has its size and digest, and there is no other file but the manifest. |
| EventDelivery.EventInbox.MarkSeen | agent/server/websocket.go:329-358 | A marking drops exactly the expired ids, and a new id takes the place of an oldest one when the set is full. |
| EventDelivery.EntriesAreRecorded | agent/server/websocket.go:344-357 | The seen set never holds more than 4096 entries, and each is the record of a marking that was new. |
| EventDelivery.EvictionNeedsNewerIds | agent/server/websocket.go:344-355 | When an id is evicted, 4096 other ids were newly seen since it was recorded. |
| EventDelivery.AtMostOnce | agent/server/websocket.go:396-399 | Two dispatches of one id are more than ten minutes apart, or at least 4096 other ids were newly seen between them. |
| EventDelivery.NewAgainExactly | agent/server/websocket.go:329-358 | A marking of an id is new exactly when the last new one was more than ten minutes before, or at least 4096 other ids were newly seen since. |
| EventDelivery.MalformedIsAckedOnRedelivery | agent/server/websocket.go:396-399 | An event whose processing failed is acknowledged when it comes again while it is remembered. |
| EventDelivery.EventInbox.Clear | agent/server/websocket.go:301-318 | Filtering in place keeps exactly the ids that were not sent, in order. |
| EventDelivery.EventInbox.AddAck | agent/server/websocket.go:320-327 | A non-empty id is appended. |
| EventDelivery.EventInbox.ProcessEvent | agent/server/websocket.go:396-399 | An event counts as handled exactly if it was seen before or its payload is accepted, and is acted on exactly if it is new and accepted. |
| EventDelivery.AcksAreConserved | agent/server/websocket.go:166-182 | Over every interleaving of the loops, each id ever acknowledged is listed or was carried by a POST that succeeded, and only handled ids are listed or sent. |
| EventDelivery.HandledEventIsListed | agent/server/websocket.go:396-399 | In every run, after processing an event its loop lists the id exactly when the payload was accepted or the id is still remembered. |
| EventDelivery.ResponseIsProcessed | agent/server/websocket.go:180-182 | Every event of a response is processed once, in order, before the loop is idle again. |
| EventDelivery.ListedIsPosted | agent/server/websocket.go:168-169 | Every id that is listed at the snapshot is carried by the POST when it succeeds. |
| EventDelivery.PostedIsCleared | agent/server/websocket.go:170-181 | A successful POST clears exactly the ids that it carried; a failed one leaves the list alone. |
| SessionCache.Sessions.Find | database/accounts/session_cache.go:46-73 | The first section empties the cache on a new users' revision and answers exactly from a live entry. |
| SessionCache.Sessions.Store | database/accounts/session_cache.go:81-98 | The second section checks the revision again, makes room and stores the answer with its time to live. |
| SessionCache.Sessions.Prune | database/accounts/session_cache.go:119-141 | Pruning drops expired entries first and then only entries that expire soonest. |
| SessionCache.AnswersAreRecent | database/accounts/session_cache.go:46-99 | Under every interleaving a call started at time t gets an answer that the database gave later than t - 30 s, or t - 10 s if negative. |
| SessionCache.AnswersStood | database/accounts/session_cache.go:75-99 | A session that is handed out stood in the sessions, with its user among the users, less than 30 s before the call; when there is said to be none, there was none, or no user of it, less than 10 s before. |
| SessionCache.MissAnswersFromTables | database/accounts/session_cache.go:75-98 | A call that misses the cache answers with the token's row if its user is there at the query, and else with none. |
| SessionCache.StoredAnswerIsUsed | database/accounts/session_cache.go:60-66 | A stored answer is given to callers whose reading is less than its time to live after that of the load, and to no others. |
| SessionCache.RemovedUserIsGone | database/accounts/accounts.go:88-94 | When the removal of a user has finished, a session of the user can be handed out only if a load had found it before the removal. |
| SessionCache.RevokedCanBeHandedOutExactly | database/accounts/session_cache.go:46-99 | In every reachable state without a session for the token, some way to go on, with the session gone all along, hands it out exactly when a load has found it and not stored it, or the cache holds it, up to date with the users and alive for some caller. |
| SessionCache.RevocationIsImmediateExactly | database/accounts/session_cache.go:101-114 | When the writer that revoked a session finishes, nothing can hand it out any more exactly when no load of its token has found it and not stored it. |
| SessionCache.RevokedOnlyIfOvertaken | database/accounts/session_cache.go:75-99 | A revoked session, or one of a removed user, is handed out after its writer has finished only if a load of its token found it before the write and stored or returned it afterwards. |
| SessionCache.RevokedIsNeverReturned | database/accounts/sessions.go:90-136 | If no write makes a token's session invalid while a load of this token has found it and not stored it, it is never handed out after its writer has finished. |
| SessionCache.RevocationCanBeOvertaken | database/accounts/session_cache.go:75-99 | Without that condition a run returns a session whose deletion has finished. |
| SessionCache.StorePanicsExactly | database/accounts/session_cache.go:81-97 | The store panics exactly when a bulk revocation left the map nil since the first section, nothing made a new one, and the revision is unchanged. |
| SessionCache.CacheIsBounded | database/accounts/session_cache.go:119-141 | The cache holds at most 4096 entries in every reachable state. |
| SessionCache.PruneMakesRoom | database/accounts/session_cache.go:116-141 | After pruning there is room for one; what was dropped expires no later than anything that stays, and a live entry is dropped only to make just that room. |
| SessionActivity.Activity.Touch | database/accounts/session_cache.go:143-152 | A touch within a minute of the token's timestamp changes nothing; another makes room and stamps the token. |
| SessionActivity.Activity.Prune | database/accounts/session_cache.go:168-191 | Pruning drops old timestamps first and then only oldest ones. |
| SessionActivity.PruneDropsOldest | database/accounts/session_cache.go:164-191 | A full map loses all timestamps over a minute old; what is dropped is no newer than anything that stays, and a young one is dropped only to make room for one. |
| SessionActivity.WritesAreCoalesced | database/accounts/session_cache.go:143-162 | A touch writes exactly when its reading is a minute or more after that of the last write for its token, or since then the timestamp was lost: to a full map, to a failed write, or to a pruning by a later reading that got the lock first. |
| SessionActivity.FirstTouchWrites | database/accounts/session_cache.go:143-152 | A token that was never written for is written for at its first touch. |
| SessionActivity.FullMapAllowsSecondWrite | database/accounts/session_cache.go:177-190 | A history without failures in which a full map pushes a young timestamp out and a token is written twice within a minute. |
| SessionActivity.EarlierFailureAllowsSecondWrite | database/accounts/session_cache.go:156-160 | A history in which a late failure takes a newer timestamp back and a token is written twice within a minute. |
| SessionActivity.LaterReadingAllowsSecondWrite | database/accounts/session_cache.go:144-177 | A history without failures in which a later reading gets the lock first, prunes a full map, and a token is written twice within a minute. |
| SessionActivity.TimesAreBounded | database/accounts/session_cache.go:168-191 | The map holds at most 4096 timestamps in every reachable state. |
| RouteProbe.RouteState.CachedProbe | agent/routeprobe/state.go:24-55 | An uninterrupted call refuses, answers from the file, or reserves, probes once and saves. |
| RouteProbe.DecidesExactly | agent/routeprobe/state.go:26-44 | A call refuses exactly a file that cannot be used, answers with the saved state exactly when it is for the same targets and not a day old, and probes otherwise. |
| RouteProbe.CompletedCallAnswers | agent/routeprobe/state.go:38-40 | After a completed call, a later call of the day for its targets answers with its results, if none reserved since. |
| RouteProbe.InterruptedCallAnswers | agent/routeprobe/state.go:45-50 | After a call that was cut off anywhere behind its reservation, it answers with one interruption record for each target. |
| RouteProbe.ProbesAreADayApart | agent/routeprobe/state.go:24-55 | In every run of calls with any targets, cut off anywhere, two probes of the same targets are at least 24 hours apart or a probe of other targets was reserved between them. |
| RouteProbe.FixedTargetsAreADayApart | agent/routeprobe/state.go:24-55 | In every run of calls with the same targets any two probes are at least 24 hours apart. |
| RouteProbe.ProbesAreReserved | agent/routeprobe/state.go:41-50 | No probe starts without a reservation for it on disk. |
| RouteProbe.OtherTargetsAllowSecondProbe | agent/routeprobe/state.go:38-40 | For any two different lists of targets there is a run in which the first is probed twice at once, because of a call for the second in between. |
| RouteProbe.CallsProbeExactly | agent/routeprobe/state.go:28-50 | After a reservation, wherever its call and later ones are cut off, a call decides to probe exactly when the file is usable and the call has other targets or comes a day later. |
| TerminalSessions.ReachableStatesAreConsistent | agent/terminal/terminal.go:78-229 | In every reachable state each PTY was closed at most once and, until then, is owned by a process, listed with its session or about to be closed; each session has or is about to get exactly one reader; and a listed session is not removed; with a connection no timer of it ticks, and without one its timer ticks or a close of it is under way. |
| TerminalSessions.RemovedIsFinal | agent/terminal/terminal.go:103-104 | No step undoes a removal, and a removed session is never listed again. |
| TerminalSessions.ReplacedConnectionDetachesNothing | agent/terminal/terminal.go:181-198 | After either kind of join has replaced a connection, and after any further steps, a detach of it changes nothing. |
| TerminalSessions.AbandonedSessionIsClosed | agent/terminal/terminal.go:185-229 | A session whose own connection detaches is, when its timer fires, taken from the table, marked and its PTY closed, once. |
| TerminalSessions.DetachStartsRetention | agent/terminal/terminal.go:185-198 | A detach of its own connection leaves a listed session without connection and with its own timer ticking. |
| TerminalSessions.JoinedSessionIsTakenExactly | agent/terminal/terminal.go:103-110 | After a join, a fired timer or earlier close can take the session away exactly when a close of it was under way at the join. |
| TerminalSessions.FiredTimerClosesRejoinedSession | agent/terminal/terminal.go:192-207 | After a timer has fired, a connection can join and the session is closed under it. |
| TerminalTable.Terminals.EnterOrJoin | agent/terminal/terminal.go:92-112 | The second look joins a session that appeared meanwhile, leaving the new PTY an orphan, or enters the new one. |
| TerminalTable.Terminals.Detach | agent/terminal/terminal.go:185-198 | A detach acts exactly when the session is not removed and the connection is its own, and then arms the timer if none is set. |
| TerminalTable.Terminals.Take | agent/terminal/terminal.go:200-208 | A close takes the session out of the table exactly when it is the one listed there. |
| TerminalTable.Terminals.Mark | agent/terminal/terminal.go:210-223 | A close marks the session removed, stops its timer and lets its connection go, once. |
| Motd.RemoveExactly | agent/cmd/warn_linux.go:150-166 | Nothing is found exactly when there is no start marker, and a text is found exactly when it is the rest around the only start marker, cut up to the first end line after it and one newline; everything else is refused. |
| Motd.RemoveBetween | agent/cmd/warn_linux.go:150-166 | Removing a rendered block from between two texts succeeds exactly when host, user and the text after it hold no marker. |
| Motd.RenderShows | agent/cmd/warn_linux.go:143-148 | The block is the start marker, the line that names host, abilities and user in their colours, the two pieces of advice, a blank line and the end line. |
| Motd.SeparatorIsShortest | agent/cmd/warn_linux.go:80-86 | The separator is the shortest run of newlines that leaves a blank line after a base that is not empty. |
| Motd.TrimsOneNewline | agent/cmd/warn_linux.go:164 | One newline at the front is taken away, if there is one, and nothing else. |
| Motd.RemoveInstalled | agent/cmd/warn_linux.go:77-92 | What is removed from an installed text is the base with its separator and the text appended since, less one newline. |
| Motd.RoundsReachFixedPoint | agent/cmd/warn_linux.go:69-96 | Any number of installations without cleanup leave what the last one alone would leave. |
| Motd.AppendedTextSurvives | agent/cmd/warn_linux.go:120-137 | A cleanup after an append restores the base exactly, with the appended text, less one newline, right after it, or removes the file when nothing is left. |
| Motd.InterruptedBlockComesBack | agent/cmd/warn_linux.go:109-119 | After a crash and a restart, a clean stop restores the text with the crashed run's block. |
| Motd.UserTextIsConserved | agent/cmd/warn_linux.go:69-141 | Over every run of starts, appends, stops and crashes in which no host, user or append brings in a marker and no start finds half a marker at the end, no text is refused and, newlines aside, the text around the block is the original and what was appended, in order. |
| Motd.CareIsNeededExactly | agent/cmd/warn_linux.go:69-141 | In every state that such a run reaches, an event keeps these conditions exactly when every run that goes on from it and keeps them conserves the text. |
| Motd.HalfMarkersMatter | agent/cmd/warn_linux.go:130-132 | A base ends in no half marker exactly when, whatever marker-free text is appended after its block, the next start after a clean stop succeeds. |
| Motd.Motd.Install | agent/cmd/warn_linux.go:69-96 | An installation writes base, separator and block, and remembers what its cleanup needs, or leaves the file alone. |
| Motd.Cleanup.Run | agent/cmd/warn_linux.go:98-141 | A cleanup acts once: it restores the original, removes the block, or removes the file. |
| ResetDate.LastResetExactly | agent/utils/utils.go:9-38 | A date is the latest reset date not after the given time, over all months, exactly when it is the result. |
| ResetDate.ActualResetIs | agent/utils/utils.go:40-58 | A month's reset date is its day, or the first of the next month when it has no such day. |
| ResetDate.FirstDayIsCivil | agent/utils/utils.go:40-58 | The months counted one by one agree with the closed form of the civil calendar for every year and month. |
| ResetDate.InvalidDayKeepsTime | agent/utils/utils.go:10-12 | A reset day outside 1 to 31 leaves the time as it is. |
| ResetDate.GapsAreMonths | agent/utils/utils.go:40-58 | Successive reset dates are 28 to 31 days apart. |
| ResetDate.LastResetIsRecent | agent/utils/utils.go:21-37 | The result is not after the given time and less than 31 days before it. |
| ResetDate.LastResetIsMonotone | agent/utils/utils.go:9-38 | A later time has no earlier result. |
| ResetDate.LastResetIsIdempotent | agent/utils/utils.go:9-38 | The result is its own last reset date, for invalid reset days too. |

## Left out

- HTTP, WebSocket, TLS, gzip, age, SQLite, PTY and operating system calls: the database is a set of rows with a revision, the file system a map from paths to inodes with atomic rename, the clock an input.
- File modes, owners, syncs, symbolic links, Windows paths and path cleaning: targets are taken as already resolved, and the directory of a part file is the target's text up to its last slash. An id with a slash in it, which could lead out of that directory, is outside the conditions on names.
- Listing, searching, copying and moving files in `agent/server/files.go`, the download stream and the limit on concurrent streams: plumbing around the modelled core.
- `uploadWriteLock`: its exclusion is not needed for what is proved, and its entries are dropped after unlocking, so it does not exclude three or more callers.
- The fields `Size` and `CreatedAt` of an upload session, which nothing reads, and a failure to close the part file right after it was made.
- UploadRefinement.CommittedFileIsSource: assumes the five conditions named under "What is shown"; the first only says what the source is, and `UploadCollisions.EachConditionIsNeeded` shows that each of the others is needed. Necessity is shown by runs, not as a condition on single runs: a run that breaks a condition may still end well.
- UploadCancel.CancelledPartIsAbsent: is about benign runs, because a stream that outlives the session it began in may record its own part file in a later session of the same id.
- Masking.Similarity: is over exact reals; the source computes in floating point, where ratios that equal the threshold round to it.
- Masking.CollectWords: does not model invalid UTF-8, because texts are sequences of characters.
- EventDelivery.NewAgainExactly: assumes a strictly increasing clock, as `AtMostOnce` does, and says nothing of WebSocket events, which carry no id.
- SessionActivity.WritesAreCoalesced: compares the readings of the clock, not the moments at which the database is written.
- TarArchive.UnpackExactly: treats JSON, ISO times and SHA-256 as given functions, and the header parser as a parameter that `TarReading.UnpackBackup` fills with the modelled one.
- The backup writer is modelled from the ustar interchange format of IEEE Std 1003.1; the splitting of long names and the header fields that the reader ignores are free, and sorting the entries is left out, since any order is read back.
- The deadline of a restore and the messages of refusals: a refusal is one outcome.
- Making snapshots, encryption, retention and the commands of `deploy/encrypted_backup.py`.
- The expiry test of `GetSession` after a load, and what is done with the payload of an event beyond handled or not.
- RouteProbe.CallsProbeExactly: takes the JSON encoding of the state as given; its size is an input.
- Motd.UserTextIsConserved: assumes the three conditions named under "What is shown", each of which `Motd.CareIsNeededExactly` shows to be needed; that host and user are single lines is what `warningSingleLine` ensures, and newlines are not counted.
- Time zones and daylight saving in reset dates: all times have one fixed offset.
- Liveness: that every stream ends or a reconnection succeeds depends on the network.
- `removeLegacyUpdateMOTDWarning`, `measureWithRetries`, `reconnectBackoff`, the selection of releases for an update and the clamping of reported values: short functions without shared state.
