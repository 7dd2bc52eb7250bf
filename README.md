# Subgrid LiDAR merging, modelled in Dafny

The scripts prepare one merged point cloud per subgrid of a city-wide LiDAR survey.
For each subgrid, `process_subgrid` does the following steps in order:

1. Creates a working directory under the local work root.
2. Refuses to write the merged file onto the read-only archive drive `Z:`.
3. Skips the subgrid when a `*_final.las` file is already there.
4. Finds the subgrid's boundary GeoJSON in the boundary archive and copies it in.
5. Scans the point-cloud archive for `.las` files whose header box meets the boundary's box.
6. Stages those files locally under lower-cased, underscore-spaced names, skipping "Convert to las" placeholders.
7. Crops each staged file to the boundary with a pool of worker threads.
8. Merges the cropped files into `<subgrid>_final.las`.
9. Removes every entry of the working directory except final and GeoJSON files.

Crop and merge failures are appended to a process-wide error log. `process_all_subgrids`
runs the subgrids in list order. The first `PermissionError` from the write guard ends the batch.

The Dafny project has these modules:

| module | file | what it holds |
|---|---|---|
| `Paths` | paths.dfy | ASCII strings and Windows path names: `lower`, `upper`, `replace`, `startswith`, `endswith`, `in`, slicing, `ntpath.join`, `ntpath.basename` |
| `Walk` | walk.dfy | `os.walk`, as a sequence of directories whose files are visited in order |
| `Seqs` | seqs.dfy | Small sequence facts shared by the proofs |
| `FindFile` | find_file.dfy | `find_geojson` as a method over the walk, proved against the reference function `FirstMatch` |
| `Overlaps` | overlaps.dfy | `find_overlap_las` as a method building the ordered map, proved against `Scan` and the independent definition `FirstOccurrences` |
| `Utils` | utils.dfy | The write guard `check_local_path` |
| `Pipelines` | pipelines.dfy | The crop and merge pipeline descriptions given to PDAL, and what they read, write and merge |
| `Process` | process.dfy | `process_subgrid` and `process_all_subgrids` |

In `Process`, the class `Batch` holds the state the script changes:
- the error log;
- the entries of each working directory (`map<string, set<string>>`);
- a ghost record of the subgrids visited.

`Batch.ProcessSubgrid` is proved against `Run`, a functional description of one call, for some completion order of the crop tasks. The lemmas state what `Run` promises. `Batch.ProcessAllSubgrids` returns a ghost trace of the states between its calls, each step following `Run`.

The outside world enters through `Process.Env`:
- the two archive walks;
- the header reader (laspy), which yields a box or fails;
- the boundary reader (geopandas and shapely), which yields the box and its WKT;
- the pipeline runner (PDAL), which runs or raises with a message;
- which removals fail.

## Model

| member | source | states |
|---|---|---|
| FindFile.FirstMatch | find_file.py:5-11 | The lookup finds nothing exactly when no file in the walk qualifies. Otherwise it returns the joined path of a qualifying file with no qualifying file before it in walk order. |
| FindFile.FindGeojson | find_file.py:3-11 | The nested loops over roots and files, returning on the first match, give exactly `FirstMatch` of the flattened walk. |
| FindFile.FirstInRoot | find_file.py:6-10 | The inner loop stops at the first qualifying file of one root, or runs past the end when none qualifies. |
| FindFile.FirstMatchAppend | find_file.py:5-10 | Searching a concatenation looks at the second part only when the first part has no match. |
| FindFile.ExactAlternativeSubsumed | find_file.py:8-9 | The exact-prefix alternative adds nothing: a file qualifies exactly when its dashed prefix equals the dashed subgrid name. |
| FindFile.MatchIsLongEnough | find_file.py:8-9 | A matching name is at least as long as the subgrid name. A shorter name cannot match, because its slice is shorter. |
| FindFile.SeparatorTolerant | find_file.py:9 | `_` and `-` are interchangeable, position by position, on either side. |
| FindFile.CaseSensitive | find_file.py:9 | Any other difference inside the compared prefix, including case, defeats the match. |
| FindFile.ExtensionIgnoresCase | find_file.py:7-9 | `AU-12-C.GeoJSON` qualifies for `AU_12_C`: the extension test ignores case and the separators are tolerated. |
| FindFile.LowerCaseNameNotFound | find_file.py:9 | `au_12_c_x.geojson` does not qualify for `AU_12_C`. |
| FindFile.OnlyGeojsonFound | find_file.py:7 | Whatever the lookup returns is the path of a file with a `.geojson` extension in any case. |
| Overlaps.FindOverlapLas | overlaps.py:7-25 | The loops over the walk build exactly `Scan` of the flattened walk. |
| Overlaps.ScanRoot | overlaps.py:11-24 | The inner loop over one root's files extends the map as `Scan` over those files does. |
| Overlaps.ScanIsFirstOccurrences | overlaps.py:10-22 | The scan equals the reference definition: for every name, its first overlapping occurrence in walk order, kept in that order. |
| Overlaps.KeyIffOverlappedBefore | overlaps.py:13-14 | A name is already a key exactly when an earlier file of that name was a readable `.las` file whose box met the subgrid box. |
| Overlaps.ScanKeysDistinct | overlaps.py:13-14 | No name is a key twice. |
| Overlaps.ScanEntriesOverlap | overlaps.py:12-22 | Every entry is a file of the walk with a `.las` name in any case, a readable header and a box that meets the subgrid box. It is stored under its own name and joined path. |
| Overlaps.ScanComplete | overlaps.py:10-22 | The first overlapping occurrence of every name is in the result. |
| Overlaps.UnreadableDoesNotBlock | overlaps.py:16-24 | An earlier same-named file whose header cannot be read does not keep a later overlapping file out. |
| Overlaps.MissDoesNotBlock | overlaps.py:20-22 | An earlier same-named file whose box misses the subgrid does not keep a later overlapping file out. |
| Overlaps.FirstOverlappingWins | overlaps.py:13-14 | Of two overlapping files with the same name, the one met first is kept. |
| Overlaps.IntersectsClosedIntervals | overlaps.py:20-21 | For boxes given min-corner first, `intersects` is the closed-interval overlap on both axes. |
| Overlaps.IntersectsSymmetric | overlaps.py:21 | The intersection test does not depend on the order of the two boxes. |
| Overlaps.TouchingEdgesIntersect | overlaps.py:21 | Boxes that only share an edge count as overlapping. |
| Utils.CheckLocalPath | utils.py:5-9 | The path comes back unchanged, or the guard raises `PermissionError` with the fixed message. The raise happens exactly when the first two characters are `z` or `Z`, followed by `:`. |
| Utils.GuardReadsTwoCharacters | utils.py:7 | Paths that agree on their first two characters get the same verdict. |
| Utils.GuardIdempotent | utils.py:5-9 | Guarding a path the guard let through gives the same result. |
| Utils.ShortPathsPass | utils.py:7-9 | Paths shorter than two characters always pass. |
| Utils.ZLaterIsAllowed | utils.py:7 | `Z:` later in a path is no reason to refuse it. |
| Utils.GuardFollowsDirectory | utils.py:7 | Any two files joined under the same directory get the same verdict. |
| Pipelines.CropPipelineMeaning | process.py:69-75 | The crop pipeline reads the one staged file, filters by the boundary polygon and writes the one cropped file in EPSG:32748. It merges nothing. |
| Pipelines.MergePipelineMeaning | process.py:92-99 | The merge pipeline reads the cropped files in list order, merges once and writes only the merged file in EPSG:32748. It has two stages more than there are cropped files. |
| Pipelines.ReadersRead | process.py:94 | The readers read exactly the given files, in order, and write and merge nothing. |
| Process.Batch.constructor | config.py:15 | A batch starts with an empty error log and the given directories. |
| Process.Batch.StageLas | process.py:50-61 | `local_las` is the staged path of every non-placeholder entry, in map order. The working directory gains exactly the staging names. The error log is unchanged. |
| Process.Batch.JoinTasks | process.py:81-87 | The join consumes every submitted task once, in some order. `cropped_files` and the new error-log entries are the results and errors in that order. Nothing else changes. |
| Process.Batch.CropAll | process.py:79-87 | For some completion order of `local_las`, `cropped_files` and the appended error-log entries are as `CroppedIn` and `CropErrorsIn` give them. The working directory gains the `CROP_` files of the successful tasks. |
| Process.Batch.MergeCropped | process.py:89-105 | The merge adds the final file or one "Merging failed" entry, and only when something was cropped. |
| Process.Batch.Cleanup | process.py:107-114 | The working directory keeps exactly its final files, its GeoJSON files and the entries whose removal failed. |
| Process.Batch.ProcessOverlap | process.py:50-114 | Staging, cropping, merging and cleanup, composed: the log and the directory are as the four steps give them, in order. |
| Process.Batch.ProcessFound | process.py:34-114 | After the boundary is found, the call never raises. Its outcome, log and directories are those `Run` gives for some completion order. |
| Process.Batch.ProcessSubgrid | process.py:14-114 | The call raises exactly when the guard refuses the merged path. The log only grows. The outcome, the appended log entries and the working directory are those of `Run` for some completion order of the crop tasks. No other directory changes. |
| Process.Batch.Visit | process.py:130-133 | One pass of the batch loop raises exactly when the subgrid's merged path is refused. The log only grows, and the batch trace gains the state the call left, reached from the previous state as `Run` says. |
| Process.Batch.ProcessAllSubgrids | process.py:119-133 | The subgrids are called in list order, up to and including the first refused one. The batch ends with that `PermissionError`, or completes when none is refused. The returned trace runs from the starting state to the final error log and working directories, and each call in it follows `Run` from the state the previous call left. |
| Process.BatchStep | process.py:130-132 | A call that follows `Run` from the last state of a batch trace extends the trace by one subgrid. |
| Process.FirstRefused | process.py:130-132 | The index of the first subgrid whose merged path is refused, with no refused subgrid before it. |
| Process.RunEarly | process.py:19-32 | A refused guard, an existing final file and a missing boundary each end the call with no crop task, no log entry and the directory as it was after `makedirs`. |
| Process.CropAccounting | process.py:79-87 | Every submitted crop task contributes exactly one entry: a cropped path or an error-log entry. |
| Process.CroppedMembership | process.py:83 | A path is in `cropped_files` exactly when some task returned it. |
| Process.CropErrorMembership | process.py:84-87 | A message is among the new error-log entries exactly when some task raised the error it reports. |
| Process.CropOrderIrrelevant | process.py:81 | The completion order changes the order of `cropped_files` and of the new log entries, never their contents. |
| Process.CropTaskResult | process.py:67-77 | A successful task returns its input's `CROP_` path, which passed the guard, after a pipeline run that read the input and wrote that path. A failed task reports the guard's error or the pipeline's. |
| Process.CropGuardFollowsMerge | process.py:68 | Once the merged path has passed the guard, no crop output in the same directory is refused. |
| Process.StagedPaths | process.py:50-61 | `local_las` holds the staged path of exactly the non-placeholder entries, and is no longer than the map. |
| Process.PlaceholderRecognised | process.py:52-56 | "_Convert to las.las" is recognised as a placeholder whatever its case and spacing; "X_convert.las" is not. |
| Process.StagingCollision | process.py:53-61 | Two entries whose names differ only in case and spacing are staged under one name. The second copy is skipped and `local_las` lists the same path twice. |
| Process.MergeOnlyIfCropped | process.py:89-105 | With nothing cropped the merge adds nothing. Otherwise it adds exactly one thing: the final file when the run succeeds, or one log entry. Its pipeline reads the cropped files and writes the merged file. |
| Process.CleanupKeeps | process.py:107-114 | Cleanup never adds entries. It keeps final and GeoJSON files, and keeps any other entry exactly when its removal fails. |
| Process.ProcessedAccounting | process.py:79-105 | For a processed subgrid, the cropped files and new log entries number at least the staged files and at most one more. |
| Process.OnlyProcessedLogs | process.py:24-48 | Only a processed subgrid adds error-log entries. |
| Process.SecondCallSkips | process.py:24-26 | After a call whose merge succeeded, the next call on the same subgrid is skipped, with no log entry and no change. |
| Process.FinalSurvives | process.py:110 | A written final file survives cleanup and satisfies the completion test. |
| Paths.BasenameOfJoin | process.py:34 | The basename of a file joined under a directory is the file's own name. |

## Left out

- Printing, colours and the progress bar (`alive_bar`, titles and ticks) are not modelled. The "Final LAS file created" message (process.py:116) is printed even when nothing was merged; it is not modelled either.
- config.py is not modelled: the archive and work roots are parameters. main_las.py, the entry point that calls the batch and prints the log, is not part of this model.
- PDAL (`run_pipeline`), laspy header reads, and geopandas/shapely boundary reading and reprojection are foreign calls. They are function-valued parameters of `Process.Env`, so the model says nothing about point data, coordinate reference systems or WKT text.
- Thread concurrency: the pool of four workers is modelled only through the order in which the joins see the tasks complete, which may be any permutation. Concurrent writes by two tasks to the same `CROP_` file (see `Process.StagingCollision`) are not modelled.
- `shutil.copy`, `os.makedirs` and geopandas reads are assumed not to raise. An exception from them, or from the boundary read, would end the call; the model does not capture that.
- The filesystem is a map from directory path to the names in it. Existence checks are membership tests. The parent directories `makedirs` creates are not tracked. File contents, including the merged file's, are not recorded.
- Process.Batch.ProcessSubgrid: subgrid names are taken to be plain file names, with no drive, separator or root, as the names in config.py:9-12 are. For a name such as `Z:x`, `ntpath.join` discards the work root, so the guard would refuse it; the model joins it under the work root instead. For a name such as `AU\12`, the final file lands in a sub-directory, which the model does not capture. The same holds for `Process.FirstRefused`, `Process.Batch.ProcessAllSubgrids` and `Process.SecondCallSkips`.
- Paths.Join models `ntpath.join` only for a second argument that is a plain file name. Paths.Lower and Paths.Upper model `str.lower` and `str.upper` on ASCII letters only.
- Floating-point box coordinates are modelled as `real`.
- Behaviour of the scripts a reader might not expect:
  - `makedirs` runs before the write guard, so a `Z:` work root gets its directory created before the `PermissionError`. `Process.Batch.ProcessSubgrid` models that.
  - The copies are not guarded.
  - A guard refusal inside a crop task is caught by the join and logged as "Cropping failed".
  - An empty path from the lookup counts as not found.
