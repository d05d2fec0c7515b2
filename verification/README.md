# The measure storage engine of BanyanDB, modelled in Dafny

A measure keeps rows of (series, timestamp, version, cells). Writes become memory parts, a flusher
turns memory parts into file parts, a merger merges file parts, and queries read a snapshot, an
immutable list of parts. For every series and timestamp a reader is to see a row of the greatest
version that was written.

Everything here hangs on one relation, `Points.Refines(qs, ps)`: `qs` holds only points of `ps`, and
for every point of `ps` a point of the same series and timestamp whose version is at least as great.
Rows of equal version are interchangeable.

## The modules

| module | what it covers |
|---|---|
| `Points`, `Parts`, `Collections` | points, the relation above, blocks, primary blocks, parts; sorted permutations |
| `Schemas`, `Joins`, `FamilyOrder`, `SchemaGrowth` | the column names of a block; exactly when appends and merges of such blocks are clean; the order in which families are read back; ways for columns to grow |
| `Columns`, `TagColumns`, `TagAppend` | appending field columns and tag families, and exactly when that appends the other block's values |
| `Columnar`, `ReadBack` | a block laid out in columns, the rows it holds, and that appending columns appends rows; writing a block's columns and reading them back |
| `BlockMerge` | block pointers and the two-way merge with swapped roles |
| `BlockWriter`, `BlockReader` | the writer with its order panics and two-level index; the k-way reader |
| `PartMerge`, `MergeSchemas`, `MergePacking` | the streaming merge of parts: pending block, spill, split; the columns of merged blocks; how full they are |
| `MemPart` | sorting, deduplicating in place and cutting written points into blocks |
| `PartIter`, `BlockSearch` | index-guided iteration over one part and over a snapshot |
| `QueryOrder`, `QueryResult`, `Query` | what an answer is; cursors, `Pull` and its merge; a whole query |
| `Table`, `TableSteps` | the snapshot protocol as a step machine with a disk and a crash step |
| `TableRefs`, `TableInv`, `TableFrames`, `TableKeeps`, `TableWork`, `TableNext`, `TableBuild`, `TableReplace`, `TableView`, `TableCrash`, `TableRun` | its invariant, kept by every step |
| `TableTheorems`, `TableFiles`, `TableSpace`, `TableSchemas` | what holds in every reachable state; which snapshot files and which directories there are; the columns of all parts over whole runs |
| `TableProgress` | what the threads can bring about from every reachable state |
| `TableCode`, `Restart` | the introducer's and the startup's code, proved against the steps |
| `EndToEnd` | in a reachable state a query answers with what was introduced, and a merge of a loop's inputs is one that the protocol accepts |
| `MergePolicy` | which parts to merge |
| `VarArray` | escaped string arrays |
| `StreamMerge` | the stream's merge, which keeps every element |

## How to read it

- `Refines` in a contract means: nothing invented, no greatest version lost. `QueryOrder.IsAnswer`
  means: strictly sorted in the requested order, and refining the selected points, hence one row of
  greatest version per selected (series, timestamp); `QueryOrder.AnswerUnique` shows that this fixes
  the answer up to rows of equal version, and `Query.Answers` says the same in terms of the request.
- The steps of `TableSteps` may interleave in any order. The introducer's work is three steps
  (build the next snapshot, replace and persist, release the old one), because readers, the flusher
  and the merger can run in between. A run may contain any number of crashes, each followed by any
  number of attempts to start that die while they remove directories and files.
- A block is seen in two ways. `Columnar.ColumnBlock` has timestamps, versions and columns, and its
  `append` works column by column as the code does. `BlockMerge.BlockPointer` has the rows, which is
  what a merge is about. `Columnar.AppendShows` shows that the two appends are one operation, under
  the condition `Joins.CleanAt` for the room that the slices have, which every append of a merge meets.
- How much room Go's slices have left is not known to any caller. `Joins.AlwaysClean` is the condition
  whatever the room (`Joins.AlwaysIff`), and merges are required to be clean in that sense.
- A part wrapper and a snapshot never change what they hold, so the state keeps contents and
  reference counters apart: an object is open as long as it has a counter.
- `container/heap` and `sort` are used through their contracts: any least element may be at the
  front, any sorted permutation may be the result.
- Serialised sizes are function parameters, so every limit check can go either way.

What the code does where its comments, or a natural expectation, say otherwise:

- A memory part makes one block of 8193 rows of a series (`MemPart.OverlongBlock`). Merging blocks of
  8192 + d rows without a shared timestamp leaves d rows more pending after every split
  (`PartMerge.SplitRemainder`, `PartMerge.LongerRemainder`), so blocks may grow with every merge; the
  bound is 8192 + d * n for n input blocks. For d = 0 no block is longer than 8192
  (`PartMerge.MergeParts`).
- Timestamp zero is taken for "unset": the first key is dropped if its timestamp is zero, and only
  then (`MemPart.MustInitFromDataPoints`).
- Appending fields appends the other block's values if and only if the column names agree throughout,
  or the fast path gives up before its first write and no shared column comes after more new columns
  than the slice has room for (`Columns.AppendedIff`). Otherwise values are appended twice, or lost
  (`Columns.LateColumnIsLost`).
- Appending tag families fails in another way: a family that comes after more new families than the
  slice has room for still gets the values of the columns it has, but not a new column
  (`TagColumns.AppendedTagsIff`, `TagColumns.LateFamilyLosesColumn`). The fast path may also give up
  in a later family after it has written an earlier one; then values are there twice
  (`TagColumns.DoubledTags`).
- A merge does not read tag families in the order they were written: the metadata holds them in a map,
  and they come back sorted by name. So a series whose columns are only ever added at the end may lose a
  column all the same: let a block gain a column in an old family, and a new family whose name comes
  first (`ReadBack.ReadOrderLosesColumn`).
- A new family that is read between old ones, the first of which has columns, breaks merges, although
  one append of it is clean: the merged block has it at the end, and the next append of the same block half writes through
  the fast path before it gives up (`SchemaGrowth.InsertedFamilyBreaks`,
  `SchemaGrowth.InsertedFamilyOnce`).
- If a directory's metadata is valid at the first look of a start and not at the second, the snapshot
  file is written again and its epoch registered again; the next cleaning then deletes that file, and
  unless a newer one has been written by then, the next start removes every part (`Restart.InitTSTable`, `Restart.RewrittenFileIsDeleted`,
  `TableCrash.CleanDeletesLiveIff`).
- Only files that a newer one replaces while the table is open are cleaned up. A snapshot file that a
  restart finds beside the newest one, because the process died before it cleaned, is never deleted
  until a restart finds nothing to load (`TableFiles.RestartLeaves`, `TableFiles.StrayStays`,
  `TableProgress.FileIsLeft`).

Assumptions, all stated as preconditions: series IDs are positive; requested series are distinct;
part sizes and the merge multiplier are positive; column names within a block are distinct, and the
columns given to a memory part's block have all cells of its points; the
wall clock at a restart is not behind the epochs in use; and the columns of the blocks that are merged
merge cleanly, series by series. The last one, `MergeSchemas.SchemasAgree`, asks for a set of schemas
that holds the columns of the blocks as they are read, and everything that can be pending, and in which
every append is clean (`Joins.Carries`). Such a set exists if and only if every append of every merge of
blocks with these columns is clean, in any order and however the rows interleave, whatever the room
(`Joins.MergesCleanlyIff`). Two ways to meet it are proved: columns that, as read, are only added at the
end (`SchemaGrowth.ChainLasts`), and a new family that is read before the old one
(`SchemaGrowth.PrependedFamilyLasts`). A set that writing and reading back do not leave either
(`MergeSchemas.Lasting`) lasts for whole runs: if all that is written or received keeps to it, so does
every part there ever is, and every merge of a loop can be run (`TableSchemas.AllPartsWithin`,
`EndToEnd.MergeInputs`).

## Model

| member | source | states |
|---|---|---|
| `Points.RefinesKeepsMaxVersion` | banyand/measure/merger.go:410-427 | refinement keeps the greatest version of every series and timestamp, in both directions |
| `BlockMerge.BlockPointer.Append` | banyand/measure/block.go:940-962 | if the append is clean for the room that the slices have, appends exactly the rows from the other block's cursor to the offset and joins the columns; the offset check cannot fire |
| `BlockMerge.BlockPointer.CopyFrom` | banyand/measure/block.go:925-929 | holds the rest of the other block, its metadata and its columns |
| `BlockMerge.BlockPointer.UpdateMetadata` | banyand/measure/block.go:915-923 | the range becomes that of the rows; nothing else changes |
| `BlockMerge.MergeTwoBlocks` | banyand/measure/merger.go:360-437 | two strictly increasing blocks whose appends are clean in every interleaving, and whose cells lie in their columns, merge into a strictly increasing one that refines their union; its columns are those of one side or of both joined, and every cell of every row lies in them |
| `BlockMerge.CursorStep` | banyand/measure/merger.go:404-431 | one turn of the loop keeps "appended plus remaining refines the input", with and without a shared timestamp |
| `BlockWriter.Writer.MustWriteBlock` | banyand/measure/block_writer.go:206-251 | adds one block; beside the two order panics the rows must be sorted, which the block checks with a panic, be of the series they are written under and have their cells in the block's columns, which the caller means |
| `BlockWriter.Writer.FlushPrimaryBlock` | banyand/measure/block_writer.go:253-262 | the closed primary block carries its least series and an exact time range, and holds just the blocks buffered |
| `BlockWriter.Writer.Flush` | banyand/measure/block_writer.go:264-282 | the part's index covers every block written, and its counts and range are exact; every primary block ends with the block that takes its metadata over 131072 bytes, but for the last, which may be shorter |
| `BlockReader.Advance` | banyand/measure/part_iter.go:288-331 | the next block of a part in file order, across primary blocks, or the end |
| `BlockReader.OpenIters` | banyand/measure/block_reader.go:146-165 | the iterators together hold the blocks of all parts, with the least block in front |
| `BlockReader.NextFront` | banyand/measure/block_reader.go:187-209 | exactly the front block is consumed and a least block is in front again |
| `BlockReader.Reader.NextBlockMetadata` | banyand/measure/block_reader.go:167-185 | hands out a least outstanding block, each once, and ends only when none is left |
| `BlockReader.Reader.LoadBlockData` | banyand/measure/block.go:331-350 | the rows of the block handed out, and its columns with the families sorted by name |
| `PartMerge.Start` | banyand/measure/merger.go:296-301 | the block read becomes pending; nothing lost, order kept |
| `PartMerge.Replace` | banyand/measure/merger.go:303-310 | the pending block is written and the block read becomes pending; nothing lost, order kept |
| `PartMerge.Keep` | banyand/measure/merger.go:312-326 | the merged block becomes pending; nothing lost, order and length bound kept |
| `PartMerge.Spill` | banyand/measure/merger.go:328-333 | an oversized merge result is written at once; the next block may still be written after it |
| `PartMerge.Split` | banyand/measure/merger.go:335-346 | the first 8192 rows are written, the rest stays pending; nothing lost, order kept |
| `PartMerge.MergeBlocks` | banyand/measure/merger.go:270-358 | whatever the reader delivers, if the columns of each series as they are read merge cleanly, the output part is well-formed, every cell in its block's columns included, refines the input points, has blocks within the length bound and columns that arise from the input's; of two consecutive blocks of a series the first is full: 8192 rows, over two megabytes, or an input block of two |
| `PartMerge.MergeParts` | banyand/measure/merger.go:234-266 | merging parts whose columns as they are read merge cleanly gives a well-formed part that refines their union, with columns that arise from theirs and packed as above; no part to merge is its own outcome, and only a close stops it |
| `PartMerge.ReplaceFull` | banyand/measure/block.go:1250-1252 | a pending block that is replaced within its series is full in that sense, whatever its metadata says after a merge has reset it |
| `PartMerge.SplitRemainder` | banyand/measure/merger.go:335-346 | without shared timestamps a split leaves pending exactly the rows of both blocks beyond 8192 |
| `PartMerge.LongerRemainder` | banyand/measure/merger.go:335-346 | two blocks of 8193 rows whose split leaves 8194 pending |
| `MergeSchemas.Merge` | banyand/measure/merger.go:312-346 | what is pending can be merged with the next block of its series as it is read, and what the merge leaves can again |
| `MergeSchemas.StillWithin` | banyand/measure/merger.go:270-358 | blocks with columns of lasting sets merge cleanly, and what a merge writes has columns of the same sets |
| `MemPart.DataPoints.Skip` | banyand/measure/datapoints.go:173-184 | removes exactly the point at the index |
| `MemPart.SkipStep` | banyand/measure/part.go:183-188 | a repeated key is dropped in favour of a version at least as great |
| `MemPart.Result` | banyand/measure/part.go:176-190 | what is kept refines the input if and only if the least key is not at timestamp zero |
| `MemPart.ZeroTimestampIsDropped` | banyand/measure/part.go:176-190 | a point at timestamp zero alone is lost |
| `MemPart.MustInitFromDataPoints` | banyand/measure/part.go:162-205 | a well-formed part, every cell in its block's columns included, whose rows are the points left, one per key, cut into blocks of one series, each as long as it may be: 8193 rows or the row that reaches two megabytes; refines the input iff the least key is not at timestamp zero |
| `MemPart.BlocksAreCutWell` | banyand/measure/part.go:192-199 | the cuts the loop makes leave the rows in order, no block longer than 8193 rows or over two megabytes before its last row, and none that could have taken the next row of its series |
| `MemPart.OverlongBlock` | banyand/measure/part.go:192-199 | 8193 rows of one series within the size limit make one block |
| `PartIter.SearchPBM` | banyand/measure/part_iter.go:165-182 | the last primary block whose series is below the one sought, or the first: every later one starts at or after it; the panic is unreachable |
| `PartIter.DropPrimaries` | banyand/measure/part_iter.go:136-163 | the primary blocks before the one found hold no wanted block |
| `PartIter.Iter.SearchTargetSeriesID` | banyand/measure/part_iter.go:112-134 | moves to the first requested series from the given one on and loses no wanted block |
| `PartIter.Iter.LoadNextBlockMetadata` | banyand/measure/part_iter.go:136-163 | skips only primary blocks without a wanted block |
| `PartIter.Iter.FindBlock` | banyand/measure/part_iter.go:210-250 | delivers the first wanted block of what is left, or finds that the buffer holds none |
| `PartIter.Iter.NextBlock` | banyand/measure/part_iter.go:79-93 | one call after the other delivers the linear filter of the part by series and time, in order |
| `BlockSearch.GetParts` | banyand/measure/snapshot.go:72-84 | the parts left out hold no wanted block |
| `BlockSearch.SearchBlocks` | banyand/measure/tstable.go:422-490 | the blocks found over all parts are exactly the wanted ones, as often as they occur, and in order |
| `QueryResult.FindRange` | pkg/timestamp/range.go:143-170 | of timestamps in ascending or descending order, the indices of exactly those in the range, or none |
| `QueryResult.LoadData` | banyand/measure/block.go:815-852 | a cursor holds exactly the rows of its block in the queried time range |
| `QueryResult.DropBlank` | banyand/measure/query.go:802-807 | removing the listed blank cursors from the back leaves the other ones in order |
| `QueryResult.AdvanceHead` | banyand/measure/query.go:938-952 | consumes one row of the front cursor and restores the heap |
| `QueryResult.Merge` | banyand/measure/query.go:901-956 | a result of one series, sorted, that refines the rows it consumed; the rest stays in the heap; the branch that replaces a row is never taken |
| `QueryResult.CopyAllRows` | banyand/measure/block.go:483-594 | copying a whole cursor, forwards or reversed, gives its rows in the requested order |
| `QueryResult.Puller.Pull` | banyand/measure/query.go:753-823 | each result continues the sorted answer; the last call finds nothing left |
| `QueryResult.PullAll` | banyand/measure/query.go:753-956 | all results together are strictly sorted and refine the rows of the blocks in the time range |
| `QueryOrder.LeastMeans` | banyand/measure/query.go:848-878 | the heap order agrees with the requested order of (series, timestamp) and puts newer versions first |
| `QueryOrder.AnswerMeaning` | banyand/measure/query.go:901-956 | every answered row has the greatest version of its key, and every selected key is answered |
| `QueryOrder.AnswerUnique` | banyand/measure/query.go:848-956 | two answers to one query have the same keys and versions in the same places |
| `QueryOrder.AnswerTransfers` | banyand/measure/query.go:901-956 | an answer over a refining collection is an answer over the refined one |
| `Query.NothingPruned` | banyand/measure/part_iter.go:149-151 | pruning parts, primary blocks and blocks loses no point in the queried range |
| `Query.Run` | banyand/measure/query.go:83-218 | from the parts of a snapshot to rows: only selected points, for each a row of its key as new, one per key, in the requested order, by time either way or by the place of the series in the request |
| `Query.AnswerMeans` | banyand/measure/query.go:848-956 | a strictly sorted refinement in the order made for a request is the answer to the request in its own terms |
| `TableRefs.OpenSnap` | banyand/measure/snapshot.go:101-140 | a new snapshot keeps the counters exact: shared parts gain a reference, new ones hand theirs over |
| `TableRefs.CloseSnap` | banyand/measure/snapshot.go:90-99 | the last hold closes a snapshot and exactly the parts that nothing else holds |
| `TableRefs.AddToken` | banyand/measure/snapshot.go:43-52 | acquiring the current snapshot keeps the counters exact |
| `TableNext.WithoutIs` | banyand/measure/snapshot.go:127-140 | removal by ID keeps exactly the parts of other IDs |
| `TableNext.SubstitutedIs` | banyand/measure/snapshot.go:112-125 | the flush replaces in place, by ID |
| `TableNext.CurIdsDistinct` | banyand/measure/introducer.go:244-287 | no two current parts share an ID, although a flushed part has the ID of its memory part |
| `TableNext.NextIs` | banyand/measure/snapshot.go:101-140 | picking parts by ID replaces exactly the inputs of a change by its outputs, and marks exactly the inputs of a merge |
| `TableBuild.SentIsReady` | banyand/measure/flusher.go:101-209 | a change a loop has sent still refers to current parts only, and its outputs are new |
| `TableBuild.BuildKeeps` | banyand/measure/introducer.go:221-287 | building the next snapshot keeps the invariant |
| `TableReplace.ReplaceClosesNothing` | banyand/measure/introducer.go:289-299 | the introducer's hold keeps the replaced snapshot open: replacing closes nothing |
| `TableReplace.OtherKind` | banyand/measure/merger.go:91-168 | what the flusher has in flight and what the merger has in flight are disjoint |
| `TableReplace.NotRelisted` | banyand/measure/flusher.go:211-218 | a part marked for removal is not listed by any later snapshot file |
| `TableReplace.NextNotDeleting` | banyand/measure/part.go:278-295 | no directory of the next snapshot is being removed |
| `TableView.OutsRefine` | banyand/measure/flusher.go:178-209 | flushed parts hold the memory parts' points, merged parts refine those of their inputs |
| `TableView.ReplaceKeeps` | banyand/measure/introducer.go:289-299 | replacing and persisting keeps the invariant, visible points and persisted points included |
| `TableKeeps.DropKeeps` | banyand/measure/part.go:278-295 | letting go of a snapshot closes parts and removes directories, but none that is open, current or listed |
| `TableWork.PrepareMemKeeps` | banyand/measure/tstable.go:370-392 | a new memory part keeps the invariant |
| `TableWork.ReceivesKeeps` | banyand/measure/write_data.go:55-65 | a received file part keeps the invariant |
| `TableWork.FlushFresh` | banyand/measure/flusher.go:178-191 | a memory part that is about to be flushed has no directory yet |
| `TableWork.FlushEndKeeps` | banyand/measure/flusher.go:188-191 | a flushed part, paired by ID with its memory part, keeps the invariant |
| `TableWork.MergeEndsKeeps` | banyand/measure/merger.go:105-168 | a merged part that refines its inputs keeps the invariant |
| `TableCrash.CleanKeepsNewest` | banyand/measure/gc.go:45-57 | cleaning never deletes the newest snapshot file |
| `TableCrash.CleanDeletesLiveIff` | banyand/measure/gc.go:34-57 | registering an epoch and cleaning deletes that epoch's file iff the epoch was live or up for deletion before and the file can be deleted |
| `TableCrash.AttemptKeeps` | banyand/measure/tstable.go:107-142 | an attempt to start that dies among its removals leaves a disk from which a restart brings back as much |
| `TableCrash.OpensComplete` | banyand/measure/tstable.go:188-218 | every directory opened at startup is complete, never one in the middle of its removal |
| `TableCrash.OpensCurrent` | banyand/measure/tstable.go:188-218 | every file part that was current is opened at startup |
| `TableCrash.CrashKeeps` | banyand/measure/tstable.go:49-143 | a crash at any point, any number of attempts to start that die, and a restart lead to a state that satisfies the invariant |
| `TableRun.StepKeeps` | banyand/measure/introducer.go:114-299 | every step of every thread keeps the invariant |
| `TableRun.RunKeeps` | banyand/measure/introducer.go:114-299 | so does every run, over any interleaving and any number of crashes |
| `TableTheorems.OpenIffNeeded` | banyand/measure/part.go:270-295 | in every reachable state a part is open iff a held snapshot holds it or its maker still has it |
| `TableTheorems.CountsAreExact` | banyand/measure/snapshot.go:90-99 | in every reachable state a snapshot's counter is the number of holds on it, and a part's that of the open snapshots holding it, plus one while its maker has it |
| `TableTheorems.HeldIsReadable` | banyand/measure/snapshot.go:43-99 | every part of a held snapshot is open, and its directory is complete and not being removed |
| `TableTheorems.SnapshotIsolation` | banyand/measure/snapshot.go:43-52 | as long as a snapshot is held, whatever else happens, it shows the same points in open parts |
| `TableTheorems.VisibleRefinesIntroduced` | banyand/measure/introducer.go:221-299 | in every reachable state the current snapshot, with what was handed off, refines everything introduced |
| `TableTheorems.VisibleVersionIsGreatest` | banyand/measure/introducer.go:221-299 | the greatest version visible for a key is the greatest introduced for it, and conversely |
| `TableTheorems.ReplaceKeepsVisible` | banyand/measure/introducer.go:289-299 | no introduction hides a visible point or an equal or newer version of it |
| `TableTheorems.DirectoryIsNew` | banyand/measure/merger.go:111 | an ID taken for a directory, by a merge, a receipt or a flush, names no existing directory |
| `TableTheorems.SnapshotExists` | banyand/measure/introducer.go:244-287 | the panics on a missing current snapshot are unreachable |
| `TableTheorems.PersistsNewest` | banyand/measure/tstable.go:256-283 | a persisted snapshot file is newer than every file there is |
| `TableTheorems.RestartIsDurable` | banyand/measure/tstable.go:49-143 | after a crash, however often startup dies, all points of the current file parts are back, nothing never offered appears, everything ever persisted is there in a version at least as great or was handed off |
| `TableTheorems.EpochsIncrease` | banyand/measure/tstable.go:236-243 | along every run, crashes included, each snapshot file has a greater epoch than all files written before |
| `TableCode.TsTable.CopyAllTo` | banyand/measure/snapshot.go:101-110 | the same parts, one more reference each |
| `TableCode.TsTable.MergeParts` | banyand/measure/snapshot.go:112-125 | the loop computes the substitution by ID and counts the parts it shares |
| `TableCode.TsTable.RemoveParts` | banyand/measure/snapshot.go:127-140 | the loop computes the removal by ID, counts the parts it keeps and marks the others |
| `TableCode.TsTable.DecRefPart` | banyand/measure/part.go:278-295 | the last reference closes the part, and starts the removal of a file part's directory if it is marked |
| `TableCode.TsTable.DecRef` | banyand/measure/snapshot.go:90-99 | the loop does what the protocol's release of a snapshot says |
| `TableCode.TsTable.Clean` | banyand/measure/gc.go:45-57 | the loop does what the protocol's cleaning step says: exactly the files up for deletion go, but for those that cannot be deleted, which stay up for deletion; the live file and all contents stay |
| `TableCode.TsTable.PersistSnapshot` | banyand/measure/flusher.go:211-218 | the file lists the IDs of all parts, memory parts included, and is registered as live |
| `TableCode.TsTable.ReplaceSnapshot` | banyand/measure/introducer.go:289-299 | does what the protocol's replacing step says |
| `TableCode.TsTable.BuildNext` | banyand/measure/introducer.go:221-287 | does what the protocol's building step says, for all four kinds of introduction |
| `TableCode.TsTable.Introduce` | banyand/measure/introducer.go:221-299 | an introduction that nothing interrupts is the protocol's steps in sequence, and keeps the invariant |
| `Restart.LoadSnapshot` | banyand/measure/tstable.go:188-234 | opens exactly the listed parts that are valid on the second look, removes the others, numbers from the greatest ID opened, and flags a listed part that is no longer valid |
| `Restart.InitTSTable` | banyand/measure/tstable.go:49-234 | opens the directories, valid at both looks, that the newest readable file lists, removes all others and the newer unreadable files; starts empty iff no directory is valid at first or no file can be read; writes the file and registers its epoch again iff a listed directory has vanished between the looks and another is opened |
| `Restart.RewrittenFileIsDeleted` | banyand/measure/gc.go:34-57 | after the file has been written again, the next cleaning leaves no file iff the deletion succeeds |
| `Restart.Startup` | banyand/measure/tstable.go:49-143 | on the disk a crash leaves, opens, numbers, removes and registers exactly what the protocol's crash step says |
| `EndToEnd.QuerySnapshot` | banyand/measure/query.go:83-218 | in every reachable state a query over a held snapshot answers the request, in the requested order, with its resolved view, and over the current one with that of everything introduced |
| `TableSchemas.RunWithin` | banyand/measure/introducer.go:114-299 | along every run, if what enters the table has columns of lasting sets and merges are merges, so has every part, in memory and on disk |
| `TableSchemas.AllPartsWithin` | banyand/measure/tstable.go:49-143 | so it is in every state such runs reach, crashes and merges of merges included |
| `EndToEnd.MergeInputs` | banyand/measure/merger.go:105-168 | in every such state the merge of a loop's inputs can be run, and what it makes is accepted as the finished merge and keeps to the sets |
| `TableProgress.SentIsIntroduced` | banyand/measure/introducer.go:221-299 | in every reachable state whatever has been sent can be introduced; the new snapshot has exactly its outputs in place of its inputs, files and history follow, and the sender goes on |
| `TableProgress.WriteBecomesVisible` | banyand/measure/introducer.go:221-242 | in every reachable state a write can be made visible: readers then see exactly its points besides, and no snapshot file is written |
| `TableProgress.FlushCanBegin` | banyand/measure/flusher.go:183-186 | in every reachable state the flusher can begin to flush a memory part of its snapshot iff the part holds points |
| `TableProgress.FlushMakesDurable` | banyand/measure/flusher.go:178-209 | from every reachable state the flusher can flush the memory parts that hold points, all or any: file parts of the same IDs and content take their place, are listed by the newest file, and every restart brings their points back |
| `TableProgress.MergeMakesDurable` | banyand/measure/merger.go:105-168 | so can a loop merge any two or more parts it holds: the merged part takes their place and lasts |
| `TableProgress.MergeGivesUp` | banyand/measure/merger.go:105-168 | a merge that fails leaves an unfinished directory, and the loop can let go of its snapshot |
| `TableProgress.SyncHandsOff` | banyand/measure/introducer.go:274-287 | handed-off parts leave the snapshot, their points count as handed off, and nothing else changes |
| `TableProgress.ReceivedLasts` | banyand/measure/write_data.go:55-65 | a received part becomes current, is persisted with its introduction and lasts |
| `TableProgress.PersistedIff` | banyand/measure/introducer.go:221-299 | an introduction writes a snapshot file, which names the parts of the new snapshot in order, iff it is not that of a memory part |
| `TableProgress.FilesLast` | banyand/measure/tstable.go:188-218 | in every reachable state every current file part is in the newest file, its directory is complete, and every restart brings its points back |
| `TableProgress.AcquireSees` | banyand/measure/snapshot.go:43-52 | acquiring holds the current snapshot once more and shows its points |
| `TableProgress.LoopAcquireSees` | banyand/measure/flusher.go:178-186 | a loop that acquires has exactly the memory parts, or the file parts, of the current snapshot before it |
| `TableProgress.ReleaseGivesBack` | banyand/measure/snapshot.go:90-99 | a reader can let go: one hold less, what is current unchanged |
| `TableProgress.PrevGivesBack` | banyand/measure/introducer.go:289-299 | so can the introducer of the old snapshot |
| `TableProgress.LoopReleaseGivesBack` | banyand/measure/snapshot.go:90-99 | so can the loops |
| `TableFiles.CleanIs` | banyand/measure/gc.go:45-57 | the exact effect of a cleaning on files, their contents and what is up for deletion, and that it touches nothing else |
| `TableFiles.CleanLeaves` | banyand/measure/gc.go:34-57 | in every reachable state a cleaning that can delete leaves exactly the newest file and the stray ones |
| `TableFiles.NothingStray` | banyand/measure/gc.go:34-57 | on a table that has not restarted it leaves the newest file alone |
| `TableFiles.RestartLeaves` | banyand/measure/tstable.go:121-143 | a restart that loads something keeps every file, and all but the newest are stray; one that does not leaves none |
| `TableFiles.StrayStays` | banyand/measure/gc.go:34-57 | whatever the table does until it restarts, no stray file is deleted; cleaning leaves the newest file alone iff the restart found no other |
| `TableProgress.FileIsLeft` | banyand/measure/gc.go:34-57 | a run with one restart after which a stale file stays for good |
| `TableSpace.NoDirectoryIsLeft` | banyand/measure/part.go:278-295 | in every reachable state every complete directory holds a part that a held snapshot or its maker needs |
| `TableSpace.QuietDisk` | banyand/measure/part.go:278-295 | when nobody else holds a snapshot or makes a part, the complete directories are exactly those of the current file parts |
| `MergePolicy.LaterIsBigger` | banyand/measure/merger_policy.go:93-97 | windows of one length only grow, so stopping at the first that is too big skips none |
| `MergePolicy.FilterLosesNothing` | banyand/measure/merger_policy.go:61-69 | the size filter excludes no window that fits and reaches the multiplier |
| `MergePolicy.TryLength` | banyand/measure/merger_policy.go:86-104 | after the windows of one length, the last best window so far is known |
| `MergePolicy.GetPartsToMerge` | banyand/measure/merger_policy.go:53-117 | of the parts small enough for the disk and the fan-out, by size: nothing is chosen iff no window is worth merging, else the last of the best; a window is worth merging iff it has two to the maximum number of parts and at least half of that or of those there are, fits the free space and the greatest fan-out, is balanced, and is at least the multiplier and half the maximum times its largest part; no such window of all parts is better |
| `MergePolicy.ChoiceMeans` | banyand/measure/merger_policy.go:106-117 | the search's choice by ratio and threshold is the choice of a window worth merging that none beats |
| `VarArray.MarshalVarArray` | banyand/measure/datapoints.go:95-109 | fast path and escaping loop append the same encoding |
| `VarArray.UnmarshalVarArray` | banyand/measure/datapoints.go:111-134 | the loop computes one decode step, errors included |
| `VarArray.ScanEncoded` | banyand/measure/datapoints.go:95-134 | decoding an encoded element followed by anything gives the element and exactly the rest |
| `VarArray.ScanIff` | banyand/measure/datapoints.go:111-134 | an element is decoded iff the input is a run of plain and escaped bytes, a delimiter and the rest |
| `VarArray.ScanErrors` | banyand/measure/datapoints.go:111-134 | each error occurs iff the input is a run without a delimiter, or one that ends in an escape |
| `VarArray.DecodeArray` | banyand/measure/query.go:603-614 | yields a list iff the value is runs of plain and escaped bytes for its elements, each closed by a delimiter, and panics iff it is no such sequence |
| `VarArray.DecodedIff` | banyand/measure/query.go:603-614 | a value decodes to a list iff it is such runs for exactly that list |
| `VarArray.WriteAndRead` | banyand/measure/datapoints.go:75-134 | writing an array value and reading it gives it back, code to code |
| `VarArray.RoundTrip` | banyand/measure/datapoints.go:75-134 | decoding the encoding of any list of byte strings gives the list back |
| `VarArray.EncodedBytes` | banyand/measure/datapoints.go:95-109 | in bytes: 124 ends an element, and 92 goes before each 124 and 92 in it |
| `Joins.AlwaysIff` | banyand/measure/block.go:964-1130 | an append is clean whatever room the slices have iff it is clean with none |
| `Joins.MergeableIff` | banyand/measure/merger.go:360-437 | six appends decide whether all appends of a merge of two blocks are clean, however their rows interleave |
| `Joins.MergesCleanlyIff` | banyand/measure/merger.go:270-358 | all appends of all merges of blocks with given columns are clean iff some set of schemas carries them |
| `FamilyOrder.AsReadIs` | banyand/measure/block.go:331-350 | the families as read are sorted by name and have the columns they had; sorted ones are read as written |
| `FamilyOrder.BelowIff` | banyand/measure/block.go:340-350 | the order of names: at the first place where two differ, the lesser character or the end |
| `SchemaGrowth.FieldsFitClean` | banyand/measure/block.go:1071-1130 | field names of which one list continues the other are clean, whatever room there is |
| `SchemaGrowth.TagsFitClean` | banyand/measure/block.go:964-1069 | so are tag families of which one list continues the other and which the fast path does not half write |
| `SchemaGrowth.ChainLasts` | banyand/measure/block.go:331-350 | columns that, as read, are only added at the end merge cleanly for ever |
| `SchemaGrowth.PrependedFamilyLasts` | banyand/measure/block.go:331-350 | so do blocks that gain a family whose name comes before the other's |
| `SchemaGrowth.InsertedFamilyBreaks` | banyand/measure/block.go:964-987 | a family added after a first one that has columns, and not at the end, makes merges half write |
| `SchemaGrowth.InsertedFamilyOnce` | banyand/measure/block.go:964-1069 | although one append of such a block is clean |
| `Columns.JoinedCells` | banyand/measure/block.go:1085-1130 | in the join of two tables every cell is where its row is, missing cells are nil, and every column is as long as the rows |
| `Columns.FastIsJoin` | banyand/measure/block.go:1071-1083 | on equal names the fast append, the full append and the join agree |
| `Columns.FullIff` | banyand/measure/block.go:1085-1130 | the full append is the join iff no shared column comes after more new ones than the slice has room for |
| `Columns.Doubled` | banyand/measure/block.go:949-956 | a fast path that gives up after its first write makes the append wrong |
| `Columns.AppendedIff` | banyand/measure/block.go:940-956 | the field append is the join iff the names agree, or the fast path writes nothing and no shared column is late |
| `Columns.LateColumnIsLost` | banyand/measure/block.go:1102-1114 | two tables for which a column's new values are lost |
| `Columns.Fields.FastAppend` | banyand/measure/block.go:1071-1083 | appends to the columns before the first different name, and reports success iff there is none |
| `Columns.Fields.FullAppend` | banyand/measure/block.go:1085-1130 | the three loops together compute the full append, lost writes included |
| `Columns.Fields.Append` | banyand/measure/block.go:940-956 | the code appends rows iff the tables are clean |
| `TagColumns.FullTagsIff` | banyand/measure/block.go:989-1069 | the full tag append is the join iff no family that gains a column is late, and in the others no shared column is |
| `TagColumns.DoubledTags` | banyand/measure/block.go:964-987 | a fast path that gives up after its first write, in whatever family, makes the append wrong |
| `TagColumns.AppendedTagsIff` | banyand/measure/block.go:1219-1231 | the tag append is the join iff the names agree, or the fast path writes nothing and every family is fine |
| `TagColumns.LateFamilyLosesColumn` | banyand/measure/block.go:1016-1041 | a late family whose known column gets its values and whose new column is lost |
| `TagAppend.Tags.FastAppend` | banyand/measure/block.go:964-987 | appends to families and columns up to the first difference, and reports success iff there is none |
| `TagAppend.Tags.FullAppend` | banyand/measure/block.go:989-1069 | the loops together compute the full append, writes through stale pointers included |
| `TagAppend.Tags.Append` | banyand/measure/block.go:1219-1231 | the code appends the other block's tags iff the families are clean |
| `Columnar.JoinedRows` | banyand/measure/block.go:940-962 | joining columns is appending rows |
| `Columnar.JoinedSchema` | banyand/measure/block.go:940-962 | the join of two blocks has the joined names, and a value for every row in every column |
| `Columnar.ColumnBlock.Append` | banyand/measure/block.go:940-962 | if it is clean for the room that the slices have, the code appends exactly the other block's rows, with every cell |
| `Columnar.AppendShows` | banyand/measure/block.go:940-962 | the append on rows, which the merges use, and the append on columns keep showing the same block |
| `ReadBack.WriteAndRead` | banyand/measure/block.go:185-205 | families written to the metadata's map and read back in the order of their names are the same families, sorted |
| `ReadBack.SeqReadFamilies` | banyand/measure/block.go:340-350 | the names of the map are sorted and each family is read, whatever order the map is walked in |
| `ReadBack.ReadRows` | banyand/measure/block.go:331-350 | a block read back holds the rows that were written |
| `ReadBack.ReadOrderLosesColumn` | banyand/measure/block.go:340-350 | a block that gains a column in an old family and a new family whose name comes first loses the column in a full slice, although it continues the other block as written |
| `StreamMerge.MergeTwoBlocks` | banyand/stream/merger.go:346-384 | if the appends are clean in every interleaving, the merged block is sorted and holds every row of both, as often as they do; terminates although a turn may append nothing; its columns are those of one side or of both joined, and every cell lies in them |
| `StreamMerge.MergeBlocks` | banyand/stream/merger.go:270-344 | if the columns of each series as they are read merge cleanly, the output holds every row exactly as often as the input, in a well-indexed part; no writer panic fires; of two consecutive blocks of a series the first is over two megabytes, or an input block of two |
| `StreamMerge.MergeParts` | banyand/stream/merger.go:233-266 | merging stream parts whose columns as they are read merge cleanly conserves the rows and the total count |

## Left out

- TopN blocks and their post-processing: they depend on a priority queue that is not part of this model.
- zstd, the integer, dictionary and float codecs, and the byte layout of block metadata: a part holds its blocks directly.
- BlockMerge.MergeTwoBlocks: asks for columns that merge in every interleaving and whatever the room, because the capacity of pooled slices is not known to a caller; blocks that merge only thanks to larger slices or to the order of their rows are excluded.
- StreamMerge.MergeTwoBlocks: asks for the same.
- PartMerge.MergeParts: asks for columns that merge cleanly in any number and order of blocks, so a merge that is clean only for the blocks at hand is excluded; what single appends do then is exact in `Columns` and `TagColumns`.
- StreamMerge.MergeParts: asks for the same.
- The columns of a memory part's block, which the code takes from its data points by position: a parameter gives the list of names, and data points of one block are taken to have the same.
- Value types of columns: cells are bytes or nil.
- Column-level metadata that a part iterator carries from block to block: only series, range and counts are modelled.
- File system errors: writes succeed or the process dies; deleting a snapshot file may fail.
- Unreadable snapshot files in the protocol: a file is written by a rename, so it is there whole or not at all; `Restart.InitTSTable` covers them.
- Integer overflow: sizes, counts, IDs and epochs are unbounded, and merge ratios are exact reals.
- Which memory parts the flusher merges together: any two or more of those it may still use.
- Watchers, timers, flush pauses and concurrency tokens: steps happen at any time.
- The syncer's transport and retries: a sync is the removal of parts whose points were handed off.
- Projection, entity and tag filters, and the series index: a query selects by series and time.
- The stream's introducer, flusher, garbage cleaner and policy: near duplicates of the measure's.
