# A verified model of zClone's stateful cores

This Dafny project models the parts of zClone where state, interleaving or
crashes make correctness hard to see, and proves what each of them promises.
`dafny verify dfyconfig.toml` checks everything.

**Checkpointed recovery** (`bin/zclone-recover.py`). `RecoveryModel` has the
records, names and library functions; `RecoveryJournal` the checksummed
write-ahead journal; `RecoveryReplay` the transition check; `RecoveryProtocol`
the upload as a step system over journal file, staging and store, in which a
crash may fall between any two durable effects, tear an append after any number
of bytes, leave anything at the object being written, and lose or corrupt
staging; `RecoverySafety` the invariant; `RecoveryRestore` the restoring loops;
`RecoveryTheorems` the promises over whole histories and `RecoveryProgress` that
an interrupted session can be completed. SHA-256, JSON and gzip are
parameters: the hash is assumed free of collisions only on a finite set of
strings, compression is any relation that decompression inverts.

**VFS directory cache** (`vfs/dir.go`). `VfsChains` has parent chains and counts
as values; `VfsDir` the classes with virtual entries, counts up the parent chain,
purge and merge; `VfsTree` walks through the cache; `VfsForget` and `VfsRename`
forgetting and renaming; `VfsMoves` what a move between parents does to the
counts; `VfsCache` what the cache keeps and `VfsOps` what each step does, as
values; `VfsRuns` whole runs and `VfsCases` concrete ones. A
set `S` of directories and a set `F` of files stand for the objects that exist;
heap states are captured as values (`Shot`, `Shape`, `Names`, `Cache`) so that
lemmas can speak about two states at once.

**VFS file and handles** (`vfs/file.go`, `vfs/read.go`, `vfs/write.go`).
`VfsFile` has writers and chained renames (the directory cache's view of a file
is the smaller `VfsDir.File`), `VfsRead` the read handle over a reader any of
whose reads may fail, `VfsWrite` the write handle on top of `VfsFile.OpenFile`.

**Azure listing and block upload** (`backend/azureblob`). `AzureShards` has the
ladder, the shards and the listings; `AzureParallel` the concurrent workers;
`AzureBlocks` the chunk writer with its clearing of uncommitted blocks.

**Small cores.** `MountOptions` (`fs/mount_helper.go`), `NodeAux`
(`vfs/nodeaux.go`), `RangeOptions` (`fs/open_options.go`), with `Decimal`, `Text`
and `Wrappers` beneath them.

Concurrency is modelled by steps of a state machine, one per atomic effect;
methods that run under their lock are one step. What the environment decides
(failures, answers of a service, which bytes of a write arrived) is an argument
of a step or a nondeterministic choice in a method.

## Where the code falls short of its description

Each is proved; the members named give the exact condition or a concrete case.

- A directory moved to another parent takes its virtual entries along but no
  counts (`VfsRename.Rename`, `VfsMoves.MoveIsExactWhen`,
  `VfsMoves.MoveCanBreakCounts`).
- A directory moved to another parent under a new name makes that parent forget
  an unrelated entry that bears its old name (`VfsRuns.NamesakeIsLostWhen`,
  `VfsCases.LostNamesake`).
- A file that is not listed when its directory is renamed keeps the old path of
  the directory, and `addObject` lists it so at the next write or at the end of
  the upload. Counts, parents, homes and the directories' paths survive that; the
  files' paths do if and only if the file notes its directory's path
  (`VfsRuns.AddKnown`, `VfsRuns.Run`, `VfsCases.ListedWithOldPath`). A handle that
  lists its file in the directory it had when it was opened, as
  `vfs/read_write.go:115` does, breaks the homes too if and only if the file has
  another directory by then (`VfsCache.SoundAfterAddWhen`).
- A deleted name that the remote still lists reappears on the next re-read: the
  purge removes every deletion mark before the listing is merged, so the branch
  of `manageVirtuals.add` that skips deleted names is never taken
  (`VfsDir.Dir.ReadDirFromEntries`; the assertion in `VfsDir.Dir.MergeOne`).
- A rename the remote refuses leaves the file under its new path and the object
  under the old one (`VfsFile.ImmediateRenameWorksWhen`). Of renames queued while
  the file was written, a refused one stops the rest, the object stays at the last
  target reached, and once it has moved at all nobody tries again
  (`VfsFile.QueuedRenamesArriveWhen`, `VfsFile.RefusedQueueStopsHalfway`).
- With an unknown size, closing an undamaged object after a partial read can
  report corruption (`VfsRead.ReadHandle.CheckHash`,
  `VfsRead.UnknownSizeFalseAlarmWhen`), and a read that is out of sequence or
  fails with retries left looks like the end of the file
  (`VfsRead.ReadHandle.ReadAt`, `VfsRead.SkippingLooksLikeEnd`,
  `VfsRead.FailingReadLooksLikeEnd`).
- With a known size, a reader that ends before its first byte on the last of all
  attempts makes a read report the end of the file in the middle of it, and
  closing finds nothing wrong (`VfsRead.ReadHandle.ReadAt`,
  `VfsRead.EndsAfterWhen`, `VfsRead.EarlyEndGoesUnnoticed`).
- A parallel listing whose caller cancels can return no error and an incomplete
  list (`AzureParallel.CompleteWhen`, `AzureParallel.CancelledListingLooksComplete`).
- Clearing uncommitted blocks also drops blocks of the same upload that were
  accepted before; the commit is then refused, never wrong
  (`AzureBlocks.CommitSucceedsWhen`, `AzureBlocks.ClearingCanLoseABlock`).
- A range with neither bound selects everything, but nothing once normalised
  (`RangeOptions.FixedRangeSameWhen`); an end equal to the size is not capped
  (`RangeOptions.FixedIsAbsolute`).
- The message for bad option names also forbids a leading `_`, which the parser
  accepts; the model follows the parser (`MountOptions.GoodName`).

## Model

| member | source | states |
|---|---|---|
| `RecoveryTheorems.CompletionRestoresSource` | bin/zclone-recover.py:227-381 | for every history of upload runs, crashed at any step, with torn journal lines, torn or corrupted objects and lost or corrupted staging: if a run completes, restoring its manifest from the store as it is then gives exactly the source bytes |
| `RecoveryTheorems.CompletedRunRestoresItsSource` | bin/zclone-recover.py:227-381 | of every history: when a run completes, restoring gives exactly the bytes of the source that the last start of the tool named |
| `RecoveryTheorems.RunIsAboutItsArguments` | bin/zclone-recover.py:236-258 | at every point of every history the running session has the source, destination and chunk size that the last start named |
| `RecoveryTheorems.StartResumesWhen` | bin/zclone-recover.py:236-258 | what a start does after any history: on an empty journal it goes on to write a header; on any other it resumes, at the first chunk and with all that the journal says, if and only if source, destination and chunk size are those of the header; else it gives up; the journal's events, staging and store stay as they are |
| `RecoveryTheorems.SendsOnlyTheRecorded` | bin/zclone-recover.py:287-292 | the tool gets ready to send a chunk, staged earlier or compressed again, only with bytes of the recorded size and hash staged |
| `RecoveryTheorems.AnyManifestIsLaidOut` | bin/zclone-recover.py:261-316 | whatever journal a run finds and whoever wrote it: when the run completes, its manifest has valid records only, laid out as restoring asks for and covering the source |
| `RecoveryTheorems.ManifestHasTheRecorded` | bin/zclone-recover.py:302-306 | and every chunk the journal recorded when the run began is in it, with that record |
| `RecoveryProgress.SessionCanComplete` | bin/zclone-recover.py:227-316 | whatever a history of interrupted runs has left, some further steps complete the session and restoring then gives the source, provided the compressor gives the one chunk that is recorded but not verified again and the manifest fits its limit; verified chunks stay as they are |
| `RecoveryProgress.OneChunk` | bin/zclone-recover.py:261-301 | from the head of the loop a round can be finished whatever the journal says about the chunk: unknown, prepared, uploaded or verified, a verified one going into the manifest as it is recorded |
| `RecoveryProgress.IntactIsNotSent` | bin/zclone-recover.py:278-299 | on resuming, a recorded object that is there already, intact, is recorded as verified and released without being sent again |
| `RecoveryProgress.StartAgain` | bin/zclone-recover.py:236-258 | a new start on whatever journal is there gets to the head of the loop |
| `RecoveryProgress.SendTheManifest` | bin/zclone-recover.py:302-316 | after the loop the checks pass and the manifest can be sent and confirmed |
| `RecoveryTheorems.AnyJournalResumes` | bin/zclone-recover.py:58-89 | every journal any interrupted history leaves loads, passes the transition check, describes chunks 0..k with all but the last verified, and every recorded chunk passes validation |
| `RecoveryTheorems.VerifiedStaysIntact` | bin/zclone-recover.py:261-300 | over any continuation of any history a verified chunk stays verified under the same object name, and its object keeps its bytes |
| `RecoveryTheorems.VerifiedIsFinal` | bin/zclone-recover.py:278-300 | the same for one step of any kind: an action of the tool, a crash, a fault behind its back |
| `RecoveryTheorems.ActionSparesVerified` | bin/zclone-recover.py:279-296 | no action of the tool, chunk or manifest transfer included, writes the object of a verified chunk |
| `RecoveryTheorems.AtMostOneStagedFile` | bin/zclone-recover.py:261-300 | at no point of any history do two complete staged chunk files exist |
| `RecoveryTheorems.RecordedIsValid` | bin/zclone-recover.py:208-224 | whatever prepare records passes validate_chunk when the session is resumed |
| `RecoveryTheorems.LongerJournalVerifiesMore` | bin/zclone-recover.py:246-258 | a journal that gained one acceptable record has lost no verified chunk |
| `RecoveryTheorems.FetchedIsSlice` | bin/zclone-recover.py:350-376 | the object of a recorded chunk that matches its record decompresses to that slice of the source and passes the restore checks |
| `RecoveryTheorems.StoredIsLaid` | bin/zclone-recover.py:337-346 | chunks recorded by the tool pass the layout check of restore and cover the source up to their end |
| `RecoveryTheorems.StoredAssembles` | bin/zclone-recover.py:349-376 | stored chunks assemble to the prefix of the source they cover |
| `RecoverySafety.HistoryKeeps` | bin/zclone-recover.py:227-316 | the invariant linking journal, staging, store and running process holds after every history |
| `RecoverySafety.StepKeeps` | bin/zclone-recover.py:227-316 | every single step, crash, torn append and fault keeps that invariant |
| `RecoverySafety.ActionKeeps` | bin/zclone-recover.py:261-316 | every action between two appends keeps it: beginning, preparing, reconciling, staging, transferring, reading back, releasing, finishing |
| `RecoverySafety.AppendKeeps` | bin/zclone-recover.py:276-296 | a completed append moves the session on by one accepted record |
| `RecoverySafety.TearKeeps` | bin/zclone-recover.py:83-89 | an append torn after any number of bytes leaves the old session |
| `RecoverySafety.StartKeeps` | bin/zclone-recover.py:236-258 | opening whatever is on disk resumes the session or refuses it, losing nothing but the torn tail; which of the two `RecoveryTheorems.StartResumesWhen` says |
| `RecoverySafety.FaultKeeps` | bin/zclone-recover.py:265-300 | losing or corrupting staging, or any object the tool does not rely on yet, keeps the invariant |
| `RecoverySafety.OverwriteKeeps` | bin/zclone-recover.py:123-128 | writing the object of the chunk at hand touches no other chunk of the session |
| `RecoverySafety.PendingAccepted` | bin/zclone-recover.py:246-258 | each record the tool is about to append is one the next transition check accepts |
| `RecoveryJournal.TornAppendIsAtomic` | bin/zclone-recover.py:58-89 | however many bytes of an appended line reached the disk, the journal loads to the old events or to those and the new one, and is never rejected |
| `RecoveryJournal.LoadTorn` | bin/zclone-recover.py:58-82 | a journal with an unterminated tail loads to its complete rows and exactly the tail is cut off |
| `RecoveryJournal.LoadedWhen` | bin/zclone-recover.py:58-82 | a file loads if and only if it is rows, one event each with the checksum chained through the events up to it, and an unterminated tail; the events are those of the rows, the digest that of the last, and the tail is what is cut off |
| `RecoveryJournal.ChainDeterminesLog` | bin/zclone-recover.py:71-75 | the last checksum pins down the whole log: equal digests of logs of one length mean equal logs, unless the hash collided on a string they hashed |
| `RecoveryJournal.AsciiIsFixedWidth` | bin/zclone-recover.py:71 | printing a digest in ASCII gives 64 bytes and keeps digests apart, as pinning down the log requires |
| `RecoveryJournal.Journal.Enter` | bin/zclone-recover.py:51-81 | the reading loop yields exactly what Load defines: the events, the digest, the file without the torn tail, or refusal with the file untouched |
| `RecoveryJournal.Journal.Reopen` | bin/zclone-recover.py:51-81 | entering what a crash left restores a valid journal with exactly the complete rows |
| `RecoveryJournal.Journal.Append` | bin/zclone-recover.py:83-89 | an append keeps file, events and digest in step |
| `RecoveryReplay.AcceptedLogIsContiguous` | bin/zclone-recover.py:246-258 | any journal the transition check accepts, whoever wrote it, describes chunks 0..k of which at most the last is unfinished |
| `RecoveryReplay.AcceptedWhen` | bin/zclone-recover.py:246-258 | the transition check accepts a log if and only if it tells of chunk after chunk, each with one record throughout, prepared, perhaps uploaded, and verified before the next; only the last may be unfinished |
| `RecoveryReplay.CheckTransitions` | bin/zclone-recover.py:246-258 | the checking loop accepts exactly the logs that Replay defines and returns their states |
| `RecoveryModel.ChunkPathInjective` | bin/zclone-recover.py:123-128 | within a session two chunk objects share a name only if they share index and content hash |
| `RecoveryModel.ManifestPathApart` | bin/zclone-recover.py:312 | the manifest object is never a chunk object |
| `RecoveryRestore.PublishedOutputIsValid` | bin/zclone-recover.py:319-383 | whatever bytes the store returns: if an output is published, the accepted chunks tile [0, size), the output has that length and every slice has its recorded raw hash |
| `RecoveryRestore.PublishedWhen` | bin/zclone-recover.py:319-383 | an output is published if and only if there is none yet, the manifest fits its limit, has a good header and chunk k at k chunk sizes up to the end of the source, and every chunk's object has the recorded size and hash and unpacks to the recorded length and hash; the output has at each chunk's place what its object unpacks to |
| `RecoveryRestore.LaidWhen` | bin/zclone-recover.py:337-346 | the layout loop accepts exactly valid records at multiples of the chunk size below the size, and has then covered that much |
| `RecoveryRestore.RestoreImage` | bin/zclone-recover.py:319-383 | the restoring loops publish exactly what Restore defines, and nothing when a check fails or the output exists |
| `RecoveryRestore.FetchAll` | bin/zclone-recover.py:350-376 | the chunk loop assembles the checked chunks in order or gives up |
| `RecoveryRestore.VerifyObject` | bin/zclone-recover.py:160-171 | the block-wise verification accepts exactly objects of the recorded size and hash |
| `RecoveryRestore.ReadRange` | bin/zclone-recover.py:192-198 | positional reads of any lengths return exactly the requested range, or fail at the end of the source |
| `RecoveryRestore.Decompress` | bin/zclone-recover.py:364-376 | the decompression loop accepts exactly the recorded length with the recorded raw hash and nothing behind it |
| `Decimal.PaddedInjective` | bin/zclone-recover.py:128 | zero-padded indices in object names are equal only for equal indices |
| `VfsRuns.Run` | vfs/dir.go:195-1242 | in every run of virtual adds, deletes, re-reads, forgets and renames of files and directories, at any directory cached or still held, and of adds, removals and changes of held files, listed or not: every step does to items, marks, parents, paths and homes exactly what that operation does (`VfsOps.StepDoes`); each directory's count equals the number of virtual entries in it and below, cached directories hang where they are listed, files belong where they are listed and are listed under their names, and every directory reached from the root has the names leading there as its path; at every point all listed files note the path of their directory if and only if no step listed one that did not; directories and files are only added |
| `VfsRuns.Step` | vfs/dir.go:195-1242 | one step: a look-up holds what is listed, a virtual add lists and marks one new node of its kind where the name is free, a delete unlists and marks the name, a re-read merges the listing into what the purge left, forgetting empties the tree but for unfinished work and what leads there, a rename moves the file or the directory, a changed file has unfinished work or not; nothing else changes, and what Run says is kept |
| `VfsRuns.RunRenames` | vfs/dir.go:1168-1242 | wherever a run renames a file, it belongs to the new directory under the new name and is listed there and nowhere else; a directory is moved, with its new path and parent and listed there alone, if and only if it would not come to lie below itself and stays with its parent or has nothing virtual left once forgotten |
| `VfsRuns.RenamedFileIs` | vfs/dir.go:1168-1242 | and the file notes the path of its new directory, its new name is marked as added and its old one as deleted |
| `VfsRuns.Forget` | vfs/dir.go:214-248 | forgetting as a value: outside the tree nothing changes, unfinished work keeps its mark and the items of the whole chain above it, items go all at once, what is still reached has nothing left to forget, and the answer is whether a mark is left |
| `VfsRuns.Reread` | vfs/dir.go:722-777 | a re-read as a value: the closed form for the directory read, everything else as it was, new nodes placed right |
| `VfsRuns.ForgotTwice` | vfs/dir.go:214-248 | forgetting and then forgetting again is forgetting |
| `VfsRuns.RenamedAfterForget` | vfs/dir.go:392-418 | a directory rename after forgetting, as the code does it, is one from the start |
| `VfsRuns.PathIsWalk` | vfs/dir.go:946-960 | at every point of every run the directory that names lead to has these names as its path, and its files belong to it under the names that list them; where files note their directories' paths, a file's own path is that path and its key |
| `VfsRuns.AddKnown` | vfs/dir.go:435-452 | listing any known file in its directory, listed there before or not and whatever had its name, keeps counts, parents, homes, names and the directories' paths, and the files' paths if and only if it notes its directory's path |
| `VfsRuns.MoveDir` | vfs/dir.go:1168-1242 | a directory rename, within its parent or to another one with nothing virtual in its tree: the tree is forgotten as far as can be and relisted under its new name alone, with a new parent and path; files that were not listed note what they noted; all of that is kept |
| `VfsRuns.MoveFile` | vfs/dir.go:1168-1242 | a file rename takes the file from the one directory to the other, which it then belongs to, changes nothing else and keeps all of that |
| `VfsRuns.NamesakeIsLostWhen` | vfs/dir.go:392-407 | a directory move makes the new parent lose another entry if and only if that has the new name, or has the old name and the parent is another one |
| `VfsCases.LostNamesake` | vfs/dir.go:392-407 | a concrete cache, built from a new root, that loses one |
| `VfsCases.ListedWithOldPath` | vfs/file.go:534-544 | a concrete run from a new root: a file being written is removed, its directory "a" renamed to "b", and the end of the upload lists it in "b" with "a" as the path of its directory |
| `VfsCache.SoundAfterEdit` | vfs/dir.go:435-508 | changing what one directory lists, with new nodes placed right, leaves everything known with the right parent and home, listed under its name, and every directory reached from the root with the right path |
| `VfsCache.NotedAfterEdit` | vfs/dir.go:722-777 | and all files with the right directory path, if the new ones have it |
| `VfsCache.SoundAfterAddWhen` | vfs/dir.go:435-452 | listing any known file in any directory keeps the cache sound if and only if it is the file's own, and the files' paths if and only if the file notes the path of that directory |
| `VfsCache.SoundAfterDrop` | vfs/dir.go:214-248 | forgetting does |
| `VfsCache.SoundAfterMove` | vfs/dir.go:362-418 | moving a directory tree that is settled at its new path does, for every walk into the tree and past it |
| `VfsCache.NotedAfterMove` | vfs/dir.go:362-418 | and all files keep noting the right path, in the tree, in parts of it no longer reached, and outside |
| `VfsCache.SoundAfterFileMove` | vfs/file.go:294-300 | moving a file does |
| `VfsRuns.HasVirtualIsExact` | vfs/dir.go:194-197 | hasVirtual holds if and only if some directory at or below has a virtual entry |
| `VfsRuns.Adopted` | vfs/dir.go:59-80 | taking in new directories below a directory keeps every count exact |
| `VfsRuns.Lookup` | vfs/dir.go:946-960 | walking the cache by item names gives the directory those names lead to, or none |
| `VfsRuns.NewRoot` | vfs/dir.go:59-80 | a new root alone is a valid cache |
| `VfsChains.ExactAfterAdd` | vfs/dir.go:446-449 | a new virtual entry is counted by adding one on the whole parent chain |
| `VfsChains.ExactAfterRemove` | vfs/dir.go:591-592 | a removed one by taking one off the whole parent chain |
| `VfsChains.ExactAfterNew` | vfs/dir.go:747-750 | hanging a new directory without virtual entries keeps every count exact |
| `VfsChains.ZeroCount` | vfs/dir.go:194-197 | a count is zero exactly when nothing at or below is virtual |
| `VfsDir.Dir.AddVirtual` | vfs/dir.go:199-205 | the count of the directory and of every ancestor moves by n, no other |
| `VfsDir.Dir.AddObject` | vfs/dir.go:435-452 | the node is listed under its own name and marked as added, counts stay exact also when the name was marked before |
| `VfsDir.Dir.DelObject` | vfs/dir.go:496-508 | the name is unlisted and marked as deleted, counts stay exact |
| `VfsDir.Dir.DeleteVirtual` | vfs/dir.go:586-597 | the mark goes, counts stay exact; without a mark nothing happens |
| `VfsDir.Dir.PurgeVirtual` | vfs/dir.go:610-649 | exactly the marks of unfinished files and of empty directories the remote cannot store survive; no deletion mark does |
| `VfsDir.Dir.Note` | vfs/dir.go:671-686 | a listed name loses its added mark; only a deletion mark makes the entry be skipped |
| `VfsDir.Dir.NodeFor` | vfs/dir.go:737-763 | a file keeps its node and gets the listed object, a directory keeps its node, any other kind gets a new one: a file that belongs here under the listed name and notes this path, or an empty directory |
| `VfsDir.Dir.MergeAll` | vfs/dir.go:725-774 | after the loop the items and marks are the old ones overlaid with the listing, name by name; an entry of unknown type stops it with counts exact |
| `VfsDir.Dir.End` | vfs/dir.go:692-718 | of the items exactly the listed and the virtually added stay; of the marks all but deletions of unlisted names |
| `VfsDir.Dir.ReadDirFromEntries` | vfs/dir.go:722-777 | closed form of a re-read: the names are the listed ones and the old ones whose virtual add survived the purge, no deletion mark and no mark on a listed name is left, a name that stays a file (a directory) keeps its node, kind and object are those of the last entry; any other node is new, belongs here and has its name |
| `VfsDir.RereadAfter` | vfs/dir.go:692-718 | overlaying the listing and then dropping what it does not show gives that closed form |
| `VfsDir.ObjectsAfter` | vfs/dir.go:738-745 | an entry gives its object to the file under its name and to no other |
| `VfsDir.EffectAfter` | vfs/dir.go:733-774 | one more listed entry extends the overlay by exactly its name |
| `VfsForget.ForgetAll` | vfs/dir.go:214-248 | directories outside the tree keep their entries; every pinned virtual entry (unfinished work) stays pinned with the items unchanged on the whole chain above it; items go all at once or not at all, and a directory that lost them counts as not read; everything still cached below is forgotten unless something virtual is at or below it; the result tells whether anything virtual is left |
| `VfsForget.UnfinishedFileStays` | vfs/dir.go:214-248 | a virtually added file still being written stays in its directory's items and is still reached from the call point by the same names |
| `VfsForget.Finish` | vfs/dir.go:228-247 | purging and then clearing unless something virtual remains |
| `VfsForget.ForgetChildren` | vfs/dir.go:220-224 | forgetting one child leaves the other children as forgotten as they were |
| `VfsRename.Rename` | vfs/dir.go:392-418 | after a directory rename, within one parent or to another, every directory still cached below has the new path joined with the names leading to it, and every file there notes its directory's path and belongs to it under the name that lists it; a file that is not listed there notes what it noted, and files that noted the path of their directory still do; outside the tree no path, no file and no item changes except that the new parent lists it under its new name and nothing under the old one; it counts as not read; the counts of virtual entries are exact afterwards if and only if forgetting left nothing virtual at or below it or the parent is the same |
| `VfsRename.RenameTree` | vfs/dir.go:362-386 | the same for the recursion; items end as they began, nothing outside the tree is renamed, and only files listed in it get another path |
| `VfsRename.RenameDir` | vfs/file.go:198-202 | the file notes the directory path and no other file changes |
| `VfsRename.CutIsProper` | vfs/dir.go:400-405 | reassigning the parent of a directory leaves the tree below it a proper tree |
| `VfsMoves.MoveIsExactWhen` | vfs/dir.go:392-407 | moving a directory without transferring counts leaves them exact if and only if nothing at or below it is virtual or the parent stays the same |
| `VfsMoves.MoveCanBreakCounts` | vfs/dir.go:392-407 | a concrete move to another parent that leaves wrong counts |
| `VfsMoves.UpAfterMove` | vfs/dir.go:400 | how a move changes the parent chain of every directory |
| `VfsFile.ObjectFollowsFile` | vfs/file.go:206-345 | for every interleaving of opening writers, renames and closes with all moves succeeding: whenever the file has an object and no writers, that object is at the file's path and holds the data last uploaded; a waiting chain always ends at that path |
| `VfsFile.DataSurvivesRefusals` | vfs/file.go:206-345 | whichever moves the remote refuses and whenever, the object holds the data last uploaded |
| `VfsFile.PathIsLastRename` | vfs/file.go:294-300 | the last rename decides the path, whatever opens and closes come between |
| `VfsFile.RanArrives` | vfs/file.go:240-292 | running a chain whose moves succeed puts the object at its last target; a chain left over would do nothing |
| `VfsFile.RanSpares` | vfs/file.go:240-292 | whatever is refused, the chain takes the object's data along, leaves none where it was, and touches no other path than its targets |
| `VfsFile.ImmediateRenameWorksWhen` | vfs/file.go:240-317 | an immediate rename succeeds, and leaves object and path together, if and only if the object is there already or the remote takes the move |
| `VfsFile.QueuedRenamesArriveWhen` | vfs/file.go:206-292 | when the last writer closes, the object ends at the target before the first refused one that it is not at already, which is the file's path if none is refused, and the exact condition for that; the rest of the queue is forgotten if and only if an earlier call has moved the object |
| `VfsFile.ChainStops` | vfs/file.go:240-292 | the same for any chain from any place |
| `VfsFile.RefusedMoveSplits` | vfs/file.go:240-317 | a refused move leaves the file under its new path and the object under the old one |
| `VfsFile.RefusedQueueStopsHalfway` | vfs/file.go:206-292 | a concrete queue of two renames, the second refused: path, object and queue disagree for good |
| `VfsFile.OpenFile.Run` | vfs/file.go:240-292 | the chained rename function does what Ran defines, moving data along |
| `VfsFile.OpenFile.ApplyPendingRename` | vfs/file.go:206-218 | the pending chain runs exactly when there is an object and no writer |
| `VfsFile.OpenFile.Rename` | vfs/file.go:223-317 | the file has its new path at once; the move is queued behind the pending chain while writing, else run now |
| `VfsFile.OpenFile.AddWriter` | vfs/file.go:320-325 | a writer is registered with the path the file has then |
| `VfsFile.OpenFile.DelWriter` | vfs/file.go:328-345 | the first registration of the handle goes, then a pending rename may run |
| `VfsFile.OpenFile.CloseWriter` | vfs/file.go:534-545 | a finished upload becomes the object and the directory lists the file before the writer is deregistered |
| `VfsRead.ReadHandle.ReadAt` | vfs/read.go:257-346 | whatever seeks, failures and retries happen: the bytes returned are those of the object at the offset; a read of an open handle succeeds if and only if one of its attempts is served, and else has the error of a closed handle, of a refused seek or of the reader; without an error all bytes that were asked for are there; with a known size an end of file is wrong if and only if bytes are there, all attempts planned for this call fail and the last ends at once, and then the offset is below the size, so that no hash is checked; with an unknown size an end of file is wrong if and only if bytes are there and the read is out of sequence or its first attempt fails with retries left; an in-sequence read that does not fail keeps the hash, and the hasher has then consumed exactly the bytes before the offset |
| `VfsRead.ReadHandle.Attempts` | vfs/read.go:277-324 | the retry loop: a failed attempt leaves the handle valid for the next one at the same offset; it succeeds if and only if some attempt is served, and ends with an end of file in exactly those cases |
| `VfsRead.ReadHandle.Try` | vfs/read.go:278-316 | one round: it succeeds if and only if this attempt is served, a success means the attempts planned do not all end in failure, and a failure leaves the same questions for the attempts that are left |
| `VfsRead.EndsAfterWhen` | vfs/read.go:277-324 | when every repositioning works, all attempts fail and the last ends at once exactly if all planned reads but the last fail and the last has no byte and an end of file |
| `VfsRead.EndsAfterNeeds` | vfs/read.go:277-324 | however repositionings go, that needs a planned read that ends at once after reads that all fail |
| `VfsRead.ReadHandle.Attempt` | vfs/read.go:295-316 | one read: premature ends count as failures, the size of an unknown object is learned only at its end |
| `VfsRead.ReadHandle.SeekTo` | vfs/read.go:116-168 | a seek gives the hash up and, if it succeeds, aligns reader and offset |
| `VfsRead.ReadHandle.Read` | vfs/read.go:395-404 | consecutive reads open the handle once and return consecutive bytes, with success, errors and a wrong end of file under exactly the same conditions |
| `VfsRead.ServedAfterWhen` | vfs/read.go:277-324 | when every repositioning works, some attempt is served exactly if one of the planned reads does not fail |
| `VfsRead.FaultlessIsServed` | vfs/read.go:277-324 | a reader that never fails serves every read within an object, whatever the handle did before |
| `VfsRead.FaultlessReadIsComplete` | vfs/read.go:257-346 | reading any object of known size with a reader that does not fail returns all bytes asked for, or those up to the end with an end of file |
| `VfsRead.WholeReadIsJudged` | vfs/read.go:257-433 | reading any object, of known size or not, whole without a fault and closing reports corruption if and only if its recorded hash is not that of its bytes |
| `VfsRead.ReadHandle.Seek` | vfs/read.go:171-188 | the read position is computed from start, current place or size; refused when seeking is off |
| `VfsRead.ReadHandle.CheckHash` | vfs/read.go:348-370 | with a known size corruption is reported only when the whole content's hash differs, and always when a complete read was hashed and it differs; an undamaged object is blamed if and only if its size is unknown, part of it has been read and hashed, and the hash tells that part from the whole |
| `VfsRead.ReadHandle.Close` | vfs/read.go:410-433 | exactly one close takes effect and its verdict is that of the hash check, false alarms under the same condition |
| `VfsRead.ReadHandle.Flush` | vfs/read.go:445-460 | flush reports the hash verdict of an opened handle and changes nothing, false alarms under the same condition |
| `VfsRead.ReadHandle.Release` | vfs/read.go:466-485 | release closes an opened handle once and leaves an unopened one |
| `VfsRead.KnownSizeIsJudgedWhole` | vfs/read.go:348-370 | with the right size the verdict is about the whole content or there is none |
| `VfsRead.UnknownSizeFalseAlarmWhen` | vfs/read.go:257-433 | opening an undamaged object of unknown size, reading its first bytes and closing reports corruption if and only if some but not all bytes were asked for and the hash tells them from the whole; the bytes read are right in any case |
| `VfsRead.PartialReadFalseAlarm` | vfs/read.go:257-433 | a concrete false alarm: one byte read of two |
| `VfsRead.FailingReadLooksLikeEnd` | vfs/read.go:277-324 | the first read of any object of unknown size failing after any number of bytes is reported as the end of the file if there are retries, as an error if there are none |
| `VfsRead.SkippingLooksLikeEnd` | vfs/read.go:277-287 | without any fault, reading any object of unknown size elsewhere than at its start reports the end of the file |
| `VfsRead.EarlyEndGoesUnnoticed` | vfs/read.go:300-433 | for any object that is not empty and of known size, a reader whose every read ends at once gives an end of file at its start and a close without an error |
| `VfsWrite.WriteHandle.Serve` | vfs/write.go:61-367 | for every sequence of writes, flushes, releases, closes, truncates and renames of the file, whatever the upload answers: every call has the error and the effect of the protocol; the upload has, one after the other, what it took of the writes; once stored, with no writer left, that is the data at the file's path; a closed handle is registered exactly once less; an object that existed is replaced only under O_TRUNC or after Truncate(0); once closed the directory lists the file if and only if it has an object |
| `VfsWrite.StoredWhen` | vfs/write.go:214-249 | in any sequence of calls the upload is stored if and only if a call that closes the handle completes it, without a reason to give it up, and it has not ended early before |
| `VfsWrite.BrokenWhen` | vfs/write.go:145-172 | it has ended early if and only if it did so during a write or the first flush that reached it |
| `VfsWrite.WrittenIsStored` | vfs/write.go:145-345 | parts written one after the other to an upload that takes them and works are all stored on release, with no error from any call |
| `VfsWrite.ClosedOnce` | vfs/write.go:214-249 | of any sequence of calls only one closes the handle, and after it nothing is taken |
| `VfsWrite.WriteHandle.WriteAt` | vfs/write.go:145-172 | a write succeeds if and only if the handle is not closed, it comes at the current offset, the upload runs or may start, and it takes all; else the error tells which of these failed, and what was taken of it is a prefix and is counted |
| `VfsWrite.WriteHandle.OpenPending` | vfs/write.go:68-104 | the upload starts once, if and only if there is no object or it may be replaced, under O_TRUNC or after Truncate(0); the directory then lists the file |
| `VfsWrite.WriteHandle.CloseWithError` | vfs/write.go:214-249 | the first close deregisters the writer once; it stores exactly the bytes of the pipe if and only if an upload ran or could start, had not ended early, is not given up and works, and its error tells; if it failed and there is no object the file is taken off its directory; any further close changes nothing |
| `VfsWrite.WriteHandle.Flush` | vfs/write.go:301-323 | flush closes a handle that has been written to; the upload of one that has not is started if it may be, and else the error says that it may not |
| `VfsWrite.WriteHandle.Release` | vfs/write.go:329-345 | release closes unless that has happened |
| `VfsWrite.WriteHandle.Truncate` | vfs/write.go:354-367 | only the current size is accepted; zero permits replacing an existing object |
| `AzureShards.ShardsListEverything` | backend/azureblob/arrow.go:41-56 | for every directory, delimiter and ladder the shard listings one after the other are the listing without bounds, common prefixes included |
| `AzureShards.KeyInExactlyOneShard` | backend/azureblob/arrow.go:138-149 | every blob and every common prefix is shown by exactly one shard |
| `AzureShards.ExactlyOneShard` | backend/azureblob/arrow.go:47-56 | every name is within the bounds of exactly one shard |
| `AzureShards.LadderBoundaries` | backend/azureblob/arrow.go:150-169 | the loop returns min(target, 36) boundaries directory+letter, strictly ascending and at the rungs of the ladder, none for a target below one; no step is skipped |
| `AzureShards.RungsAreEven` | backend/azureblob/arrow.go:160-166 | the rungs start at the first letter and are spread evenly: from each to the next, and from the last to the end of the alphabet, there are 36 / target letters or one more |
| `AzureShards.LadderAscendsFolded` | backend/azureblob/arrow.go:141-149 | the boundaries ascend also for a service that ignores case when it compares them |
| `AzureShards.MixedCaseWouldNot` | backend/azureblob/arrow.go:146-148 | with upper case letters they would not |
| `AzureShards.MakeShards` | backend/azureblob/arrow.go:47-56 | the shards are half-open and chained from no bound to no bound |
| `AzureShards.PlanShards` | backend/azureblob/arrow.go:39-56 | four boundaries per worker, at most 36, give one shard more than boundaries; none without parallelism |
| `AzureShards.ListingIsUnique` | backend/azureblob/azureblob.go:1288-1361 | given keys have only one ordered listing |
| `AzureParallel.ParallelIsSequential` | backend/azureblob/arrow.go:58-112 | if the caller does not cancel, a parallel listing without error has delivered exactly the entries of the sequential one, each once, however workers and pages interleave |
| `AzureParallel.SuccessIsComplete` | backend/azureblob/arrow.go:67-97 | without error and cancellation every shard was started and delivered completely |
| `AzureParallel.NothingTwice` | backend/azureblob/arrow.go:58-97 | in no run is an entry delivered more often than the shards' listings have it |
| `AzureParallel.NoEntryTwice` | backend/azureblob/arrow.go:58-97 | with shards over any ladder no entry is delivered twice, in no run, failed and cancelled ones included |
| `AzureParallel.RelistStartsAfresh` | backend/azureblob/arrow.go:97-110 | the sequential relisting happens only when nothing has been delivered; exactly when `AzureParallel.OutcomeIs` says |
| `AzureParallel.OutcomeIs` | backend/azureblob/arrow.go:97-112 | in every run the outcome is the parallel result if and only if no worker failed, a relisting if and only if the first failure was that bounds are not supported and no page had counted anything, and the error of the first failure in all other cases |
| `AzureParallel.FirstWorkerFails` | backend/azureblob/arrow.go:97-112 | for any shards, a run whose first worker fails at once ends in a relisting if bounds are not supported, else in its error |
| `AzureParallel.CompleteWhen` | backend/azureblob/arrow.go:72-75 | without an error the listing is complete if and only if no check before a shard came after a cancellation with a shard still to start that is not empty |
| `AzureParallel.CompleteUnlessSkipped` | backend/azureblob/arrow.go:72-75 | that is, if and only if the shards never started are empty |
| `AzureParallel.CancelledListingLooksComplete` | backend/azureblob/arrow.go:72-75 | whatever the shards hold, a caller that cancels after the first of them gets no error and only the entries of the first |
| `AzureParallel.SentIsFound` | backend/azureblob/azureblob.go:1288-1361 | the item counter is at least the number of entries delivered |
| `AzureBlocks.CommittedInOrder` | backend/azureblob/azureblob.go:2858-2928 | for every order of recording, staging, failing and clearing: a successful commit is the data of all chunks, chunk i at place i |
| `AzureBlocks.ClearedOnceAndQuietly` | backend/azureblob/azureblob.go:2793-2855 | in every run uncommitted blocks are cleared at most once, and never with a stage request in flight, which the lock held between waiting and clearing sees to |
| `AzureBlocks.AllCanReturn` | backend/azureblob/azureblob.go:2793-2928 | from every point of every run all calls can still return, and succeed but for those that have failed or have no valid number: nobody waits for the lock or for requests in flight for ever |
| `AzureBlocks.SomeCallGetsOn` | backend/azureblob/azureblob.go:2810-2855 | as long as a call has not returned, a request can be answered, or whoever has the lock can wait, clear and go on, or the lock is free |
| `AzureBlocks.ReturnsWhen` | backend/azureblob/azureblob.go:2858-2928 | in every run a call returns without error if and only if it had nothing to store or a request of its was accepted, and with one if and only if its number was not valid, a request failed for good, or so did the try after an invalid block |
| `AzureBlocks.CommitSucceedsWhen` | backend/azureblob/azureblob.go:2793-3072 | when all calls have succeeded and no number is missing, the commit succeeds if and only if no step of the run cleared the uncommitted blocks after some call had already stored its own |
| `AzureBlocks.KeptUntilCleared` | backend/azureblob/azureblob.go:2793-2928 | until then every accepted block stays staged |
| `AzureBlocks.LostIsGone` | backend/azureblob/azureblob.go:2827-2855 | a block cleared after its call has succeeded never comes back |
| `AzureBlocks.ClearingCanLoseABlock` | backend/azureblob/azureblob.go:2827-2855 | a run in which every WriteChunk succeeds but clearing has thrown out a staged block, so that the commit is refused |
| `AzureBlocks.Close` | backend/azureblob/azureblob.go:3036-3055 | the IDs are committed if and only if every number below the count is recorded and every ID is right; then they are in ascending order |
| `AzureBlocks.SortedInSequenceWhen` | backend/azureblob/azureblob.go:3038-3050 | sorted block numbers are 0..k-1 exactly when none of these is missing |
| `AzureBlocks.CoveringIsDistinct` | backend/azureblob/azureblob.go:3044-3048 | as many blocks as numbers and none missing means none doubled |
| `AzureBlocks.IdIsNumber` | backend/azureblob/azureblob.go:2666-2693 | checking an ID accepts exactly the number it was made for |
| `AzureBlocks.IdsDiffer` | backend/azureblob/azureblob.go:2666-2675 | different chunk numbers have different IDs |
| `AzureBlocks.RunKeeps` | backend/azureblob/azureblob.go:2793-2928 | lock, in-flight count, recorded and staged blocks stay consistent in every run |
| `MountOptions.RoundTrip` | fs/mount_helper.go:178-283 | options joined by commas, each bare, plain or in its own quote style with inner quotes doubled, are read back exactly; between quotes any value at all |
| `MountOptions.AcceptedWhen` | fs/mount_helper.go:178-283 | the language: a string is accepted if and only if, but for space around it, it is options joined by commas, each bare, plain or quoted, with a proper name; then it means these options |
| `MountOptions.ErrorIsOfTheRest` | fs/mount_helper.go:199-283 | the options before an error do not matter for it |
| `MountOptions.EmptyIsRefused` | fs/mount_helper.go:204-208 | nothing between two commas or before an equals sign is refused as an empty option |
| `MountOptions.ParseHelperOptionString` | fs/mount_helper.go:178-283 | the loop over states and positions parses exactly the grammar, errors included |
| `MountOptions.AcceptedIsProper` | fs/mount_helper.go:199-265 | every option of every accepted string has a proper name |
| `MountOptions.OptionIsRead` | fs/mount_helper.go:199-265 | one written option is read as itself whatever follows |
| `MountOptions.HalveDoubled` | fs/mount_helper.go:250-253 | undoubling the doubled quotes gives the value back |
| `NodeAux.EveryInterleaving` | vfs/nodeaux.go:37-67 | for every interleaving of any number of SetAux loops the list is the updates applied one by one in the order of their swaps, each returned loop once; at most one entry per owner; every owner sees its own last update |
| `NodeAux.UndisturbedLoopReturns` | vfs/nodeaux.go:44-67 | whatever happened before, a loop that loads and swaps with no swap succeeding in between has returned; its update is the last one and its owner sees the value |
| `NodeAux.SomeLoopGetsOn` | vfs/nodeaux.go:44-67 | from a loop's load to its next swap some loop has returned, another one if that swap failed |
| `NodeAux.AnyLoopCanReturn` | vfs/nodeaux.go:44-67 | left alone, a loop returns at its next swap or the one after, wherever it stands |
| `NodeAux.ReturnsAreBounded` | vfs/nodeaux.go:44-67 | there are at most as many returns as loops, so at most that many rounds in vain |
| `NodeAux.NoUpdateIsLost` | vfs/nodeaux.go:37-67 | a returned update is only ever replaced by a later one of the same owner |
| `NodeAux.UpdateIsLocal` | vfs/nodeaux.go:44-62 | an update is seen by its owner and by no other |
| `NodeAux.StepKeeps` | vfs/nodeaux.go:44-67 | a load or swap of any loop keeps the list equal to the updates so far |
| `NodeAux.AuxList.Rebuild` | vfs/nodeaux.go:45-62 | the copying loop builds the updated list, nil when it is empty |
| `NodeAux.AuxList.SetAux` | vfs/nodeaux.go:44-67 | without interference one call applies one update |
| `NodeAux.AuxList.Aux` | vfs/nodeaux.go:26-35 | the search returns the owner's value or none |
| `RangeOptions.FixedRangeSameWhen` | fs/open_options.go:118-184 | normalising keeps the bytes a range selects if and only if it has a bound or the subtraction of its end wraps around |
| `RangeOptions.UnboundedRangeLosesAll` | fs/open_options.go:163-179 | a range without bounds selects everything before and not after normalising |
| `RangeOptions.FixedSeekSameWhen` | fs/open_options.go:180-182 | turning a seek into a range keeps its bytes if and only if its offset is not negative |
| `RangeOptions.FixRangeOption` | fs/open_options.go:148-184 | in place, every element becomes its normal form and nothing changes for an unknown size; no range is left for an empty object, and what is neither a range nor a seek stays |
| `RangeOptions.FixedIsAbsolute` | fs/open_options.go:163-179 | a normalised range counts from the start and ends at most one past the last byte |
| `RangeOptions.FixedTwice` | fs/open_options.go:148-184 | normalising again changes nothing |
| `RangeOptions.RangeIsInclusive` | fs/open_options.go:118-138 | a range with bounds in order selects exactly the bytes between them, both included |
| `RangeOptions.SuffixIsLast` | fs/open_options.go:126-136 | a suffix range selects the last bytes, or all if there are fewer |
| `RangeOptions.HeaderRoundTrip` | fs/open_options.go:57-101 | reading a printed Range header gives the same range, absent bounds as -1 |
| `RangeOptions.AcceptedWhen` | fs/open_options.go:73-101 | a header is accepted if and only if it is the preamble and one range of two bounds, with space around them or without, and then it means that range |
| `RangeOptions.BoundAcceptedWhen` | fs/open_options.go:86-100 | a bound is nothing, or digits for at most the largest 64-bit integer, with a sign or without, a minus only before zero |
| `RangeOptions.CommaIsRefused` | fs/open_options.go:79-81 | several ranges are refused as such |
| `RangeOptions.AcceptedIsNormal` | fs/open_options.go:73-101 | whatever header is accepted, the range prints and reads back the same |

## Left out

- Recovery tool: fsync, locking, subprocesses and the details of `os.stat` are durable or failing steps; `prepare`'s block loop is modelled by its result and by `RecoveryRestore.ReadRange`.
- VfsDir.Dir.ReadDirFromEntries: leaves out symlink suffixes, modification times and the recursion of `readDirTree` over a directory tree.
- VfsDir.Dir.AddVirtual: the 32-bit counter is an unbounded integer; it would wrap only with two billion virtual entries.
- VfsRuns.Run: a directory that would take something virtual to another parent stays where it is, because its counts would be wrong as `VfsRename.Rename` says; renames the remote refuses and expiry timers are not steps; `addObject` of a file to a directory other than its own is not a step, `VfsCache.SoundAfterAddWhen` says what it would do; entries of a listing are taken to lie in the listed directory.
- VfsFile.ObjectFollowsFile: the on-disk cache is off and files are not symlinks; modification times are left out.
- VfsRead.ReadHandle.ReadAt: waiting for an in-sequence read is left out; a failed seek counts as a reader error that sticks until the next successful one; with an unknown size the reader itself is taken not to end too early, which nothing could tell.
- VfsWrite.WriteHandle.WriteAt: waiting for an in-sequence write is left out; sizes shown while writing are not modelled; of the directory only whether it lists the file.
- VFS: `RWFileHandle` and the on-disk cache, locks and data races inside one method, handles for reading a file being written.
- AzureShards.ShardsListEverything: that the service honours the bounds before it collapses common prefixes is an assumption; name encoding and directory markers are left out.
- AzureBlocks.CommittedInOrder: base64, MD5 checks and the pacer are left out; clearing is taken to drop all uncommitted blocks and the commit to refuse missing ones. The copy loop that shares the checker, with its part arithmetic, is left out as easier.
- MountOptions.RoundTrip: a plain last value ending in a space is excluded, because the whole string is trimmed first.
- MountOptions.ParseHelperOptionString: positions count characters instead of bytes; turning the options into flags is left out.
- NodeAux.EveryInterleaving: a pointer still held is not reused, as a garbage collector guarantees.
- RangeOptions: header options other than ranges, and the list of headers built from options.
- Azure authentication, metadata, access tiers; registry, configuration, logging, progress and other commands of the repository; backends other than azureblob: delegation with little state.
