/** Per-subgrid processing (process_subgrid) and the batch driver
    (process_all_subgrids): skip test, boundary lookup and staging, overlap scan,
    staging of the point-cloud files, cropping with a worker pool, merge, cleanup. */
module Process {
  import opened Paths
  import opened Walk
  import FindFile
  import opened Overlaps
  import opened Utils
  import opened Pipelines
  import opened Seqs

  const FinalSuffix: string := "_final.las"
  const PlaceholderMarker: string := "_convert_to_las.las"
  const CropPrefix: string := "CROP_"

  // ---------------------------------------------------------------- names

  /** The completion marker test f.endswith("_final.las"), case-sensitive. */
  predicate IsFinalName(f: string) {
    EndsWith(f, FinalSuffix)
  }

  /** The skip test: some entry of the working directory is a final file. */
  predicate AlreadyFinished(listing: set<string>) {
    exists f :: f in listing && IsFinalName(f)
  }

  /** The staging name: lower case, spaces turned into underscores. */
  function StagingName(fname: string): (r: string)
    ensures |r| == |fname|
  {
    Replace(Lower(fname), ' ', '_')
  }

  /** A "Convert to las" placeholder, recognised on the staging name. */
  predicate IsPlaceholder(fname: string) {
    Contains(StagingName(fname), PlaceholderMarker)
  }

  /** local_las: the staged path of every overlap entry that is not a placeholder, in map order. */
  function LocalLas(subdir: string, overlap: seq<Entry>): seq<string> {
    if overlap == [] then []
    else
      var last := overlap[|overlap| - 1];
      LocalLas(subdir, overlap[..|overlap| - 1]) +
        if IsPlaceholder(last.name) then [] else [Join(subdir, StagingName(last.name))]
  }

  /** The names the staging loop copies into the working directory. */
  function StagedNames(overlap: seq<Entry>): set<string> {
    set e | e in overlap && !IsPlaceholder(e.name) :: StagingName(e.name)
  }

  /** The output of crop_task for one staged file. */
  function CropPath(subdir: string, lasPath: string): string {
    Join(subdir, CropPrefix + Basename(lasPath))
  }

  /** The merged output of a subgrid. */
  function MergedPath(subdir: string, subgrid: string): string {
    Join(subdir, subgrid + FinalSuffix)
  }

  /** The cleanup keep test: final files (case-sensitive) and GeoJSON files (any case). */
  predicate KeepOnCleanup(f: string) {
    IsFinalName(f) || EndsWith(Lower(f), ".geojson")
  }

  /** What the cleanup loop leaves: kept names, and names whose removal raised. */
  function Survivors(subdir: string, listing: set<string>, removeFails: string -> bool): set<string> {
    set f | f in listing && (KeepOnCleanup(f) || removeFails(Join(subdir, f)))
  }

  // ---------------------------------------------------------------- crop tasks

  /** What a crop task needs besides its input: the subgrid, its working directory,
      the boundary polygon as WKT and the pipeline runner. */
  datatype Job = Job(subgrid: string, subdir: string, wkt: string, run: Pipeline -> RunResult)

  /** The value f.result() gives back for one task, or the exception it re-raises. */
  datatype TaskResult = Cropped(path: string) | Failed(error: string)

  /** crop_task: guard the output path, run the crop pipeline, return the output path.
      A guard refusal raises inside the task and so surfaces like a pipeline failure. */
  function CropTask(job: Job, lasPath: string): TaskResult {
    match CheckLocalPath(CropPath(job.subdir, lasPath))
    case PermissionError(msg) => Failed(msg)
    case Allowed(cropped) =>
      match job.run(CropPipeline(lasPath, job.wkt, cropped))
      case Ran => Cropped(cropped)
      case Raised(e) => Failed(e)
  }

  function CropMessage(subgrid: string, e: string): string {
    "Cropping failed for " + subgrid + ": " + e
  }

  function MergeMessage(subgrid: string, e: string): string {
    "Merging failed for " + subgrid + ": " + e
  }

  /** The order in which the futures complete: any rearrangement of the submitted inputs. */
  predicate IsCompletionOrder(order: seq<string>, tasks: seq<string>) {
    multiset(order) == multiset(tasks)
  }

  /** The callable submitted to the pool for each staged file: crop_task bound to the job. */
  function Submitted(job: Job): string -> TaskResult {
    las => CropTask(job, las)
  }

  /** The join over completed tasks: what each task contributes, in completion order. */
  function Gather(contribution: string -> seq<string>, order: seq<string>): seq<string> {
    if order == [] then [] else Gather(contribution, order[..|order| - 1]) + contribution(order[|order| - 1])
  }

  /** What the join appends to cropped_files for one completed task. */
  function ResultPaths(task: string -> TaskResult): string -> seq<string> {
    las => if task(las).Cropped? then [task(las).path] else []
  }

  /** What the join appends to error_log for one completed task. */
  function ResultErrors(subgrid: string, task: string -> TaskResult): string -> seq<string> {
    las => if task(las).Failed? then [CropMessage(subgrid, task(las).error)] else []
  }

  /** The names the successful tasks among the given ones write into the working directory. */
  function ResultWrites(task: string -> TaskResult, tasks: seq<string>): set<string> {
    set las | las in tasks && task(las).Cropped? :: CropPrefix + Basename(las)
  }

  /** cropped_files after the join when the tasks completed in the given order. */
  function CroppedIn(job: Job, order: seq<string>): seq<string> {
    Gather(ResultPaths(Submitted(job)), order)
  }

  /** The error_log entries the join adds when the tasks completed in the given order. */
  function CropErrorsIn(job: Job, order: seq<string>): seq<string> {
    Gather(ResultErrors(job.subgrid, Submitted(job)), order)
  }

  /** The names the successful crops write into the working directory. */
  function CropWrites(job: Job, tasks: seq<string>): set<string> {
    ResultWrites(Submitted(job), tasks)
  }

  // ---------------------------------------------------------------- merge

  /** The error_log entry the merge step adds, if any. */
  function MergeErrors(job: Job, cropped: seq<string>, merged: string): seq<string> {
    if cropped == [] then []
    else match job.run(MergePipeline(cropped, merged))
      case Ran => []
      case Raised(e) => [MergeMessage(job.subgrid, e)]
  }

  /** The name the merge step writes into the working directory, if any. */
  function MergeWrites(job: Job, cropped: seq<string>, merged: string): set<string> {
    if cropped != [] && job.run(MergePipeline(cropped, merged)).Ran? then {job.subgrid + FinalSuffix} else {}
  }

  // ---------------------------------------------------------------- environment

  /** The boundary as reprojected and bounded by geopandas, with shapely's WKT of its box. */
  datatype Boundary = Boundary(box: Box, wkt: string)

  /** Everything process_subgrid learns from outside: the working root, the two archive
      walks, and the foreign calls (header read, boundary read, pipeline run, file removal). */
  datatype Env = Env(
    workdir: string,
    boundaryWalk: seq<Dir>,
    lasWalk: seq<Dir>,
    header: string -> Option<Box>,
    boundary: string -> Boundary,
    run: Pipeline -> RunResult,
    removeFails: string -> bool)

  function SubdirOf(env: Env, subgrid: string): string {
    Join(env.workdir, subgrid)
  }

  /** The boundary file the lookup finds; the empty path counts as not found. */
  function BoundaryFile(env: Env, subgrid: string): Option<string> {
    match FindFile.FirstMatch(subgrid, Flatten(env.boundaryWalk))
    case Some(p) => if p == [] then None else Some(p)
    case None => None
  }

  /** The local copy of the boundary file and what the boundary read makes of it. */
  function LocalBoundary(env: Env, subgrid: string, found: string): string {
    Join(SubdirOf(env, subgrid), Basename(found))
  }

  function OverlapOf(env: Env, subgrid: string, found: string): seq<Entry> {
    Scan(Flatten(env.lasWalk), env.header, env.boundary(LocalBoundary(env, subgrid, found)).box)
  }

  function JobOf(env: Env, subgrid: string, found: string): Job {
    Job(subgrid, SubdirOf(env, subgrid), env.boundary(LocalBoundary(env, subgrid, found)).wkt, env.run)
  }

  /** The entries of a directory before anything was made. */
  function Listing(dirs: map<string, set<string>>, subdir: string): set<string> {
    if subdir in dirs then dirs[subdir] else {}
  }

  /** How process_subgrid ended. Only Fatal is visible to the caller (as a raised
      PermissionError); the other cases all return None in the script. */
  datatype SubgridOutcome =
    | Fatal(message: string)
    | AlreadyDone
    | NoBoundary
    | NoOverlap(boundaryFile: string)
    | Processed(boundaryFile: string, overlap: seq<Entry>, localLas: seq<string>, cropped: seq<string>)

  datatype RunOutcome = Completed | Aborted(subgrid: string, message: string)

  /** The guard refuses the merged path of the subgrid. */
  predicate Refused(env: Env, subgrid: string) {
    CheckLocalPath(MergedPath(SubdirOf(env, subgrid), subgrid)).PermissionError?
  }

  /** The index of the first subgrid whose merged path the guard refuses, or the
      number of subgrids when none is refused. */
  function FirstRefused(env: Env, subgrids: seq<string>): (k: nat)
    ensures k <= |subgrids|
    ensures forall i :: 0 <= i < k ==> !Refused(env, subgrids[i])
    ensures k < |subgrids| ==> Refused(env, subgrids[k])
  {
    if subgrids == [] then 0
    else if Refused(env, subgrids[0]) then 0
    else
      var k := FirstRefused(env, subgrids[1..]);
      assert forall i :: 1 <= i < |subgrids| ==> subgrids[i] == subgrids[1..][i - 1];
      1 + k
  }

  /** What one call of process_subgrid does: how it ended, the error_log entries it
      appended, and the entries its working directory holds afterwards. */
  datatype Effect = Effect(outcome: SubgridOutcome, errors: seq<string>, listing: set<string>)

  /** The crop tasks a call submits, given the working directory's entries beforehand. */
  function Tasks(env: Env, subgrid: string, listing0: set<string>): seq<string> {
    var subdir := SubdirOf(env, subgrid);
    if CheckLocalPath(MergedPath(subdir, subgrid)).PermissionError? || AlreadyFinished(listing0) then []
    else match BoundaryFile(env, subgrid)
      case None => []
      case Some(b) => LocalLas(subdir, OverlapOf(env, subgrid, b))
  }

  /** process_subgrid, step by step, when the crop tasks complete in the given order:
      guard the merged path, skip a finished subgrid, look up and copy the boundary,
      scan for overlaps, stage, crop, merge if anything was cropped, clean up. */
  function Run(env: Env, subgrid: string, listing0: set<string>, order: seq<string>): Effect {
    var subdir := SubdirOf(env, subgrid);
    var guard := CheckLocalPath(MergedPath(subdir, subgrid));
    if guard.PermissionError? then Effect(Fatal(guard.message), [], listing0)
    else if AlreadyFinished(listing0) then Effect(AlreadyDone, [], listing0)
    else match BoundaryFile(env, subgrid)
      case None => Effect(NoBoundary, [], listing0)
      case Some(b) =>
        var listing1 := listing0 + {Basename(b)};
        var overlap := OverlapOf(env, subgrid, b);
        if overlap == [] then Effect(NoOverlap(b), [], listing1)
        else
          var job := JobOf(env, subgrid, b);
          var localLas := LocalLas(subdir, overlap);
          var cropped := CroppedIn(job, order);
          var listing2 := listing1 + StagedNames(overlap) + CropWrites(job, localLas) + MergeWrites(job, cropped, guard.path);
          Effect(Processed(b, overlap, localLas, cropped),
            CropErrorsIn(job, order) + MergeErrors(job, cropped, guard.path),
            Survivors(subdir, listing2, env.removeFails))
  }

  /** The state after one call of process_subgrid, starting from dirs0 and log0, is the
      one Run gives for some completion order of the submitted crop tasks: the log is
      extended by Run's entries, the working directory holds Run's listing, and no
      other directory changed. */
  ghost predicate Follows(env: Env, subgrid: string, dirs0: map<string, set<string>>, log0: seq<string>,
                          outcome: SubgridOutcome, log: seq<string>, dirs: map<string, set<string>>)
  {
    var subdir := SubdirOf(env, subgrid);
    exists order :: IsCompletionOrder(order, Tasks(env, subgrid, Listing(dirs0, subdir))) &&
      Agrees(Run(env, subgrid, Listing(dirs0, subdir), order), dirs0, log0, subdir, outcome, log, dirs)
  }

  /** The effect e, applied to the state (dirs0, log0), gives the state (dirs, log). */
  predicate Agrees(e: Effect, dirs0: map<string, set<string>>, log0: seq<string>, subdir: string,
                   outcome: SubgridOutcome, log: seq<string>, dirs: map<string, set<string>>)
  {
    outcome == e.outcome && log == log0 + e.errors && dirs == dirs0[subdir := e.listing]
  }

  /** The script's state between two calls: working directories and error log. */
  datatype Snapshot = Snapshot(dirs: map<string, set<string>>, log: seq<string>)

  /** One call of process_subgrid leads from before to after, as Run says for some outcome. */
  ghost predicate CallFollows(env: Env, subgrid: string, before: Snapshot, after: Snapshot) {
    exists outcome :: Follows(env, subgrid, before.dirs, before.log, outcome, after.log, after.dirs)
  }

  /** The states a batch passes through: trace[j] before the call on subgrids[j] and
      trace[j + 1] after it, each call following Run from the state the previous left. */
  ghost predicate BatchTrace(env: Env, subgrids: seq<string>, trace: seq<Snapshot>) {
    |trace| == |subgrids| + 1 &&
    forall j {:trigger CallFollows(env, subgrids[j], trace[j], trace[j + 1])} :: 0 <= j < |subgrids| ==>
      CallFollows(env, subgrids[j], trace[j], trace[j + 1])
  }

  // ---------------------------------------------------------------- state

  /** The state the script changes: the process-wide error log and the entries of the
      working directories (directory path to the names in it). */
  class Batch {
    var errorLog: seq<string>
    var dirs: map<string, set<string>>
    /** The subgrids process_subgrid was called on, in call order. */
    ghost var started: seq<string>

    constructor (dirs0: map<string, set<string>>)
      ensures errorLog == [] && dirs == dirs0 && started == []
    {
      errorLog := [];
      dirs := dirs0;
      started := [];
    }

    /** The staging loop: skip placeholders, copy every other file under its staging
        name unless that name already exists, and collect the staged paths. */
    method StageLas(subdir: string, overlap: seq<Entry>) returns (localLas: seq<string>)
      requires subdir in dirs
      modifies this
      ensures localLas == LocalLas(subdir, overlap)
      ensures dirs == old(dirs)[subdir := old(dirs)[subdir] + StagedNames(overlap)]
      ensures errorLog == old(errorLog) && started == old(started)
    {
      localLas := [];
      EmptyPrefix(overlap);
      var i := 0;
      while i < |overlap|
        invariant 0 <= i <= |overlap|
        invariant localLas == LocalLas(subdir, overlap[..i])
        invariant subdir in dirs && dirs == old(dirs)[subdir := dirs[subdir]]
        invariant dirs[subdir] == old(dirs)[subdir] + StagedNames(overlap[..i])
        invariant errorLog == old(errorLog) && started == old(started)
      {
        var e := overlap[i];
        StageStep(subdir, overlap, i);
        var fname := StagingName(e.name);
        if !Contains(fname, PlaceholderMarker) {
          var localPath := Join(subdir, fname);
          AddName(old(dirs)[subdir], StagedNames(overlap[..i]), fname);
          if fname !in dirs[subdir] {
            UpdateAgain(old(dirs), dirs, subdir, dirs[subdir], dirs[subdir] + {fname});
            dirs := dirs[subdir := dirs[subdir] + {fname}];
          }
          localLas := localLas + [localPath];
        }
        i := i + 1;
      }
      WholePrefix(overlap);
    }

    /** The worker pool and its join: every submitted task completes, in an order
        chosen by the pool; a result is appended to cropped_files, an exception
        becomes one error_log entry. */
    method CropAll(job: Job, localLas: seq<string>) returns (cropped: seq<string>)
      requires job.subdir in dirs
      modifies this
      ensures exists order :: (IsCompletionOrder(order, localLas) &&
        cropped == CroppedIn(job, order) &&
        errorLog == old(errorLog) + CropErrorsIn(job, order))
      ensures dirs == old(dirs)[job.subdir := old(dirs)[job.subdir] + CropWrites(job, localLas)]
      ensures started == old(started)
    {
      var written;
      ghost var order;
      cropped, written, order := JoinTasks(job.subgrid, Submitted(job), localLas);
      WritesSame(Submitted(job), order, localLas);
      dirs := dirs[job.subdir := dirs[job.subdir] + written];
    }

    /** The join loop: take the next completed future, record its result or its error. */
    method JoinTasks(subgrid: string, task: string -> TaskResult, localLas: seq<string>)
      returns (cropped: seq<string>, written: set<string>, ghost order: seq<string>)
      modifies this
      ensures IsCompletionOrder(order, localLas)
      ensures cropped == Gather(ResultPaths(task), order) && written == ResultWrites(task, order)
      ensures errorLog == old(errorLog) + Gather(ResultErrors(subgrid, task), order)
      ensures dirs == old(dirs) && started == old(started)
    {
      cropped, written, order := [], {}, [];
      ghost var errors: seq<string> := [];
      AppendEmpty(errorLog);
      var pending := localLas;
      while pending != []
        invariant multiset(order) + multiset(pending) == multiset(localLas)
        invariant cropped == Gather(ResultPaths(task), order)
        invariant errors == Gather(ResultErrors(subgrid, task), order)
        invariant errorLog == old(errorLog) + errors
        invariant written == ResultWrites(task, order)
        invariant dirs == old(dirs) && started == old(started)
        decreases |pending|
      {
        var k :| 0 <= k < |pending|;
        var las := pending[k];
        TakeOut(pending, k);
        pending := pending[..k] + pending[k + 1..];
        var result := task(las);
        JoinStep(subgrid, task, order, las);
        if result.Cropped? {
          cropped := cropped + [result.path];
          written := written + {CropPrefix + Basename(las)};
        } else {
          AppendAssoc(old(errorLog), errors, [CropMessage(subgrid, result.error)]);
          errorLog := errorLog + [CropMessage(subgrid, result.error)];
          errors := errors + [CropMessage(subgrid, result.error)];
        }
        order := order + [las];
      }
    }

    /** The merge step: run only when something was cropped; a failure is logged. */
    method MergeCropped(job: Job, cropped: seq<string>, merged: string)
      requires job.subdir in dirs
      modifies this
      ensures errorLog == old(errorLog) + MergeErrors(job, cropped, merged)
      ensures dirs == old(dirs)[job.subdir := old(dirs)[job.subdir] + MergeWrites(job, cropped, merged)]
      ensures started == old(started)
    {
      if cropped != [] {
        var pipeline := MergePipeline(cropped, merged);
        match job.run(pipeline)
        case Ran =>
          dirs := dirs[job.subdir := dirs[job.subdir] + {job.subgrid + FinalSuffix}];
        case Raised(e) =>
          UpdateSame(dirs, job.subdir, MergeWrites(job, cropped, merged));
          errorLog := errorLog + [MergeMessage(job.subgrid, e)];
      } else {
        UpdateSame(dirs, job.subdir, MergeWrites(job, cropped, merged));
      }
    }

    /** The cleanup loop: remove every entry that is not kept; a failed removal is ignored. */
    method Cleanup(subdir: string, removeFails: string -> bool)
      requires subdir in dirs
      modifies this
      ensures dirs == old(dirs)[subdir := Survivors(subdir, old(dirs)[subdir], removeFails)]
      ensures errorLog == old(errorLog) && started == old(started)
    {
      var listing := dirs[subdir];
      var remaining := listing;
      assert Survivors(subdir, listing - remaining, removeFails) == {};
      while remaining != {}
        invariant remaining <= listing
        invariant subdir in dirs && dirs == old(dirs)[subdir := dirs[subdir]]
        invariant dirs[subdir] == remaining + Survivors(subdir, listing - remaining, removeFails)
        invariant errorLog == old(errorLog) && started == old(started)
        decreases remaining
      {
        var f :| f in remaining;
        SurvivorsStep(subdir, listing, remaining, f, removeFails);
        if !KeepOnCleanup(f) && !removeFails(Join(subdir, f)) {
          dirs := dirs[subdir := dirs[subdir] - {f}];
        }
        remaining := remaining - {f};
      }
      assert listing - {} == listing;
      assert dirs[subdir] == Survivors(subdir, listing, removeFails);
    }

    /** process_subgrid. The outcome, the entries appended to the error log and the
        working directory afterwards are those of Run for some completion order of the
        crop tasks; no other directory changes. */
    method ProcessSubgrid(env: Env, subgrid: string) returns (outcome: SubgridOutcome)
      modifies this
      ensures started == old(started) + [subgrid]
      ensures outcome.Fatal? <==> Refused(env, subgrid)
      ensures outcome.Fatal? ==> outcome.message == ZDriveMessage
      ensures |old(errorLog)| <= |errorLog| && errorLog[..|old(errorLog)|] == old(errorLog)
      ensures Follows(env, subgrid, old(dirs), old(errorLog), outcome, errorLog, dirs)
    {
      started := started + [subgrid];
      var subdir := Join(env.workdir, subgrid);
      if subdir !in dirs {
        dirs := dirs[subdir := {}];
      }
      assert dirs == old(dirs)[subdir := Listing(old(dirs), subdir)];
      RunEarly(env, subgrid, dirs[subdir]);
      var guard := CheckLocalPath(Join(subdir, subgrid + FinalSuffix));
      if guard.PermissionError? {
        outcome := Fatal(guard.message);
        FollowsWithoutTasks(env, subgrid, old(dirs), old(errorLog), outcome, errorLog, dirs);
        return;
      }
      var merged := guard.path;
      if AlreadyFinished(dirs[subdir]) {
        outcome := AlreadyDone;
        FollowsWithoutTasks(env, subgrid, old(dirs), old(errorLog), outcome, errorLog, dirs);
        return;
      }
      var found := FindFile.FindGeojson(subgrid, env.boundaryWalk);
      if found.None? || found.value == [] {
        outcome := NoBoundary;
        FollowsWithoutTasks(env, subgrid, old(dirs), old(errorLog), outcome, errorLog, dirs);
        return;
      }
      ghost var dirs1 := dirs;
      outcome := ProcessFound(env, subgrid, found.value, merged);
      FollowsAfterMakedirs(env, subgrid, old(dirs), dirs1, old(errorLog), outcome, errorLog, dirs);
    }

    /** The rest of process_subgrid once the boundary file is known and the merged path
        has passed the guard. */
    method ProcessFound(env: Env, subgrid: string, b: string, merged: string) returns (outcome: SubgridOutcome)
      requires SubdirOf(env, subgrid) in dirs
      requires CheckLocalPath(MergedPath(SubdirOf(env, subgrid), subgrid)) == Allowed(merged)
      requires !AlreadyFinished(dirs[SubdirOf(env, subgrid)])
      requires BoundaryFile(env, subgrid) == Some(b)
      modifies this
      ensures !outcome.Fatal?
      ensures started == old(started)
      ensures |old(errorLog)| <= |errorLog| && errorLog[..|old(errorLog)|] == old(errorLog)
      ensures Follows(env, subgrid, old(dirs), old(errorLog), outcome, errorLog, dirs)
    {
      var subdir := Join(env.workdir, subgrid);
      ghost var listing0 := dirs[subdir];
      var localGeojson := Join(subdir, Basename(b));
      if Basename(b) !in dirs[subdir] {
        dirs := dirs[subdir := dirs[subdir] + {Basename(b)}];
      } else {
        AddPresent(dirs, subdir, Basename(b));
      }
      ghost var copied := dirs;
      var bound := env.boundary(localGeojson);
      var overlap := FindOverlapLas(env.lasWalk, env.header, bound.box);
      if overlap == [] {
        outcome := NoOverlap(b);
        FollowsNoOverlap(env, subgrid, old(dirs), old(errorLog), b, merged, errorLog, dirs);
        return;
      }
      var job := Job(subgrid, subdir, bound.wkt, env.run);
      var localLas, cropped;
      ghost var order;
      localLas, cropped, order := ProcessOverlap(job, overlap, merged, env.removeFails);
      UpdateAgain(old(dirs), copied, subdir, copied[subdir], dirs[subdir]);
      outcome := Processed(b, overlap, localLas, cropped);
      FollowsProcessed(env, subgrid, old(dirs), old(errorLog), b, merged, order, errorLog, dirs);
    }

    /** Staging, cropping, merging and cleanup for a non-empty overlap map. */
    method ProcessOverlap(job: Job, overlap: seq<Entry>, merged: string, removeFails: string -> bool)
      returns (localLas: seq<string>, cropped: seq<string>, ghost order: seq<string>)
      requires job.subdir in dirs
      modifies this
      ensures localLas == LocalLas(job.subdir, overlap)
      ensures IsCompletionOrder(order, localLas) && cropped == CroppedIn(job, order)
      ensures errorLog == old(errorLog) + CropErrorsIn(job, order) + MergeErrors(job, cropped, merged)
      ensures dirs == old(dirs)[job.subdir := Survivors(job.subdir,
        old(dirs)[job.subdir] + StagedNames(overlap) + CropWrites(job, localLas) + MergeWrites(job, cropped, merged),
        removeFails)]
      ensures started == old(started)
    {
      localLas := StageLas(job.subdir, overlap);
      ghost var staged := dirs;
      cropped := CropAll(job, localLas);
      order :| IsCompletionOrder(order, localLas) && cropped == CroppedIn(job, order) &&
        errorLog == old(errorLog) + CropErrorsIn(job, order);
      ghost var croppedDirs := dirs;
      MergeCropped(job, cropped, merged);
      ghost var mergedDirs := dirs;
      Cleanup(job.subdir, removeFails);
      ThreeAdditions(old(dirs), staged, croppedDirs, mergedDirs, job.subdir,
        StagedNames(overlap), CropWrites(job, localLas), MergeWrites(job, cropped, merged));
      UpdateAgain(old(dirs), mergedDirs, job.subdir, mergedDirs[job.subdir], dirs[job.subdir]);
    }

    /** One pass of the batch loop over subgrids[i]: the progress bar's title and tick
        are not modelled, so it is the call of process_subgrid, seen from the batch. It
        raises exactly when the guard refuses the subgrid's merged path; afterwards one
        more subgrid has been called, the log still extends log0, and the trace of the
        batch has grown by the state the call left. */
    method Visit(env: Env, subgrids: seq<string>, i: nat, ghost started0: seq<string>, ghost log0: seq<string>,
                 ghost trace: seq<Snapshot>)
      returns (outcome: SubgridOutcome, ghost trace': seq<Snapshot>)
      requires i < |subgrids|
      requires started == started0 + subgrids[..i]
      requires |log0| <= |errorLog| && errorLog[..|log0|] == log0
      requires BatchTrace(env, subgrids[..i], trace) && trace[i] == Snapshot(dirs, errorLog)
      modifies this
      ensures started == started0 + subgrids[..i + 1]
      ensures outcome.Fatal? <==> Refused(env, subgrids[i])
      ensures outcome.Fatal? ==> outcome.message == ZDriveMessage
      ensures |log0| <= |errorLog| && errorLog[..|log0|] == log0
      ensures BatchTrace(env, subgrids[..i + 1], trace') && trace' == trace + [Snapshot(dirs, errorLog)]
    {
      ghost var logM := errorLog;
      outcome := ProcessSubgrid(env, subgrids[i]);
      trace' := trace + [Snapshot(dirs, errorLog)];
      assert CallFollows(env, subgrids[i], trace[i], Snapshot(dirs, errorLog));
      BatchStep(env, subgrids, i, trace, Snapshot(dirs, errorLog));
      PrefixSnoc(subgrids, i);
      PrefixTransitive(log0, logM, errorLog);
      AppendAssoc(started0, subgrids[..i], [subgrids[i]]);
    }

    /** process_all_subgrids: the subgrids in list order, one call each; the first
        PermissionError ends the batch and propagates. The ghost trace holds the state
        before the first call and after each call made. */
    method ProcessAllSubgrids(env: Env, subgrids: seq<string>) returns (result: RunOutcome, ghost trace: seq<Snapshot>)
      modifies this
      ensures var k := FirstRefused(env, subgrids);
        result == if k < |subgrids| then Aborted(subgrids[k], ZDriveMessage) else Completed
      ensures var k := FirstRefused(env, subgrids);
        started == old(started) + subgrids[..if k < |subgrids| then k + 1 else k]
      ensures |old(errorLog)| <= |errorLog| && errorLog[..|old(errorLog)|] == old(errorLog)
      ensures var k := FirstRefused(env, subgrids);
        BatchTrace(env, subgrids[..if k < |subgrids| then k + 1 else k], trace)
      ensures trace[0] == Snapshot(old(dirs), old(errorLog)) && trace[|trace| - 1] == Snapshot(dirs, errorLog)
    {
      ghost var k := FirstRefused(env, subgrids);
      EmptyPrefix(subgrids);
      trace := [Snapshot(dirs, errorLog)];
      var i := 0;
      while i < |subgrids|
        invariant 0 <= i <= k && i <= |subgrids|
        invariant started == old(started) + subgrids[..i]
        invariant |old(errorLog)| <= |errorLog| && errorLog[..|old(errorLog)|] == old(errorLog)
        invariant BatchTrace(env, subgrids[..i], trace)
        invariant trace[0] == Snapshot(old(dirs), old(errorLog)) && trace[i] == Snapshot(dirs, errorLog)
      {
        ghost var refused := Refused(env, subgrids[i]);
        assert refused <==> i == k;
        var outcome;
        outcome, trace := Visit(env, subgrids, i, old(started), old(errorLog), trace);
        if outcome.Fatal? {
          assert i == k && k < |subgrids|;
          return Aborted(subgrids[i], outcome.message), trace;
        }
        i := i + 1;
      }
      assert i == k == |subgrids|;
      WholePrefix(subgrids);
      return Completed, trace;
    }
  }

  // ---------------------------------------------------------------- lemmas for the loops

  /** A call that follows Run from the last state of a batch extends its trace by one state. */
  lemma BatchStep(env: Env, subgrids: seq<string>, i: nat, trace: seq<Snapshot>, next: Snapshot)
    requires i < |subgrids|
    requires BatchTrace(env, subgrids[..i], trace)
    requires CallFollows(env, subgrids[i], trace[i], next)
    ensures BatchTrace(env, subgrids[..i + 1], trace + [next])
  {
    var s, t := subgrids[..i + 1], trace + [next];
    forall j | 0 <= j < |s|
      ensures CallFollows(env, s[j], t[j], t[j + 1])
    {
      if j < i {
        assert s[j] == subgrids[..i][j] && t[j] == trace[j] && t[j + 1] == trace[j + 1];
        assert CallFollows(env, subgrids[..i][j], trace[j], trace[j + 1]);
      }
    }
  }

  /** The three ways a call ends before any crop task is submitted. */
  lemma RunEarly(env: Env, subgrid: string, listing0: set<string>)
    ensures Refused(env, subgrid) ==>
      Tasks(env, subgrid, listing0) == [] &&
      Run(env, subgrid, listing0, []) == Effect(Fatal(ZDriveMessage), [], listing0)
    ensures !Refused(env, subgrid) && AlreadyFinished(listing0) ==>
      Tasks(env, subgrid, listing0) == [] &&
      Run(env, subgrid, listing0, []) == Effect(AlreadyDone, [], listing0)
    ensures !Refused(env, subgrid) && !AlreadyFinished(listing0) && BoundaryFile(env, subgrid).None? ==>
      Tasks(env, subgrid, listing0) == [] &&
      Run(env, subgrid, listing0, []) == Effect(NoBoundary, [], listing0)
  {
  }

  /** A call that submits no crop task and changes nothing but the creation of its
      working directory. */
  lemma FollowsWithoutTasks(env: Env, subgrid: string, dirs0: map<string, set<string>>, log0: seq<string>,
                            outcome: SubgridOutcome, log: seq<string>, dirs: map<string, set<string>>)
    requires Tasks(env, subgrid, Listing(dirs0, SubdirOf(env, subgrid))) == []
    requires Run(env, subgrid, Listing(dirs0, SubdirOf(env, subgrid)), []) ==
      Effect(outcome, [], Listing(dirs0, SubdirOf(env, subgrid)))
    requires log == log0 && dirs == dirs0[SubdirOf(env, subgrid) := Listing(dirs0, SubdirOf(env, subgrid))]
    ensures Follows(env, subgrid, dirs0, log0, outcome, log, dirs)
  {
    assert log == log0 + [];
    assert IsCompletionOrder([], Tasks(env, subgrid, Listing(dirs0, SubdirOf(env, subgrid))));
  }

  /** What a call does once the merged path has passed the guard, the subgrid is not
      finished and the boundary file b was found. */
  lemma RunFound(env: Env, subgrid: string, listing0: set<string>, b: string, merged: string, order: seq<string>)
    requires CheckLocalPath(MergedPath(SubdirOf(env, subgrid), subgrid)) == Allowed(merged)
    requires !AlreadyFinished(listing0) && BoundaryFile(env, subgrid) == Some(b)
    ensures Tasks(env, subgrid, listing0) == LocalLas(SubdirOf(env, subgrid), OverlapOf(env, subgrid, b))
    ensures OverlapOf(env, subgrid, b) == [] ==>
      Run(env, subgrid, listing0, order) == Effect(NoOverlap(b), [], listing0 + {Basename(b)})
    ensures OverlapOf(env, subgrid, b) != [] ==>
      var subdir := SubdirOf(env, subgrid);
      var overlap := OverlapOf(env, subgrid, b);
      var job := JobOf(env, subgrid, b);
      var localLas := LocalLas(subdir, overlap);
      var cropped := CroppedIn(job, order);
      Run(env, subgrid, listing0, order) ==
        Effect(Processed(b, overlap, localLas, cropped),
          CropErrorsIn(job, order) + MergeErrors(job, cropped, merged),
          Survivors(subdir, listing0 + {Basename(b)} + StagedNames(overlap) + CropWrites(job, localLas)
            + MergeWrites(job, cropped, merged), env.removeFails))
  {
  }

  /** The call found no overlapping file: only the boundary copy was made. */
  lemma FollowsNoOverlap(env: Env, subgrid: string, dirs0: map<string, set<string>>, log0: seq<string>,
                         b: string, merged: string, log: seq<string>, dirs: map<string, set<string>>)
    requires SubdirOf(env, subgrid) in dirs0
    requires CheckLocalPath(MergedPath(SubdirOf(env, subgrid), subgrid)) == Allowed(merged)
    requires !AlreadyFinished(dirs0[SubdirOf(env, subgrid)]) && BoundaryFile(env, subgrid) == Some(b)
    requires OverlapOf(env, subgrid, b) == []
    requires log == log0
    requires dirs == dirs0[SubdirOf(env, subgrid) := dirs0[SubdirOf(env, subgrid)] + {Basename(b)}]
    ensures Follows(env, subgrid, dirs0, log0, NoOverlap(b), log, dirs)
  {
    var subdir := SubdirOf(env, subgrid);
    RunFound(env, subgrid, dirs0[subdir], b, merged, []);
    assert log == log0 + [];
    assert Agrees(Run(env, subgrid, Listing(dirs0, subdir), []), dirs0, log0, subdir, NoOverlap(b), log, dirs);
    assert IsCompletionOrder([], Tasks(env, subgrid, Listing(dirs0, subdir)));
  }

  /** The call staged, cropped, merged and cleaned up, with the crop tasks completing in
      the given order. */
  lemma FollowsProcessed(env: Env, subgrid: string, dirs0: map<string, set<string>>, log0: seq<string>,
                         b: string, merged: string, order: seq<string>, log: seq<string>, dirs: map<string, set<string>>)
    requires SubdirOf(env, subgrid) in dirs0
    requires CheckLocalPath(MergedPath(SubdirOf(env, subgrid), subgrid)) == Allowed(merged)
    requires !AlreadyFinished(dirs0[SubdirOf(env, subgrid)]) && BoundaryFile(env, subgrid) == Some(b)
    requires OverlapOf(env, subgrid, b) != []
    requires IsCompletionOrder(order, LocalLas(SubdirOf(env, subgrid), OverlapOf(env, subgrid, b)))
    requires log == log0 + CropErrorsIn(JobOf(env, subgrid, b), order)
      + MergeErrors(JobOf(env, subgrid, b), CroppedIn(JobOf(env, subgrid, b), order), merged)
    requires dirs == dirs0[SubdirOf(env, subgrid) := Survivors(SubdirOf(env, subgrid),
      dirs0[SubdirOf(env, subgrid)] + {Basename(b)} + StagedNames(OverlapOf(env, subgrid, b))
        + CropWrites(JobOf(env, subgrid, b), LocalLas(SubdirOf(env, subgrid), OverlapOf(env, subgrid, b)))
        + MergeWrites(JobOf(env, subgrid, b), CroppedIn(JobOf(env, subgrid, b), order), merged),
      env.removeFails)]
    ensures Follows(env, subgrid, dirs0, log0,
      Processed(b, OverlapOf(env, subgrid, b), LocalLas(SubdirOf(env, subgrid), OverlapOf(env, subgrid, b)),
        CroppedIn(JobOf(env, subgrid, b), order)), log, dirs)
  {
    var subdir := SubdirOf(env, subgrid);
    var overlap := OverlapOf(env, subgrid, b);
    var job := JobOf(env, subgrid, b);
    var listing0 := Listing(dirs0, subdir);
    RunFound(env, subgrid, listing0, b, merged, order);
    ProcessedAgrees(dirs0, log0, subdir, b, overlap, job, order, merged, env.removeFails, log, dirs);
    FollowsBy(env, subgrid, dirs0, log0, order,
      Processed(b, overlap, LocalLas(subdir, overlap), CroppedIn(job, order)), log, dirs);
  }

  /** The bookkeeping half of FollowsProcessed: the log and the directories are those
      of the Processed effect. */
  lemma ProcessedAgrees(dirs0: map<string, set<string>>, log0: seq<string>, subdir: string, b: string,
                        overlap: seq<Entry>, job: Job, order: seq<string>, merged: string,
                        removeFails: string -> bool, log: seq<string>, dirs: map<string, set<string>>)
    requires subdir in dirs0
    requires log == log0 + CropErrorsIn(job, order) + MergeErrors(job, CroppedIn(job, order), merged)
    requires dirs == dirs0[subdir := Survivors(subdir,
      dirs0[subdir] + {Basename(b)} + StagedNames(overlap) + CropWrites(job, LocalLas(subdir, overlap))
        + MergeWrites(job, CroppedIn(job, order), merged), removeFails)]
    ensures
      var localLas := LocalLas(subdir, overlap);
      var cropped := CroppedIn(job, order);
      var e := Effect(Processed(b, overlap, localLas, cropped),
        CropErrorsIn(job, order) + MergeErrors(job, cropped, merged),
        Survivors(subdir, Listing(dirs0, subdir) + {Basename(b)} + StagedNames(overlap) + CropWrites(job, localLas)
          + MergeWrites(job, cropped, merged), removeFails));
      Agrees(e, dirs0, log0, subdir, e.outcome, log, dirs)
  {
    AppendAssoc(log0, CropErrorsIn(job, order), MergeErrors(job, CroppedIn(job, order), merged));
  }

  /** Follows, shown by its witness order. */
  lemma FollowsBy(env: Env, subgrid: string, dirs0: map<string, set<string>>, log0: seq<string>, order: seq<string>,
                  outcome: SubgridOutcome, log: seq<string>, dirs: map<string, set<string>>)
    requires IsCompletionOrder(order, Tasks(env, subgrid, Listing(dirs0, SubdirOf(env, subgrid))))
    requires Agrees(Run(env, subgrid, Listing(dirs0, SubdirOf(env, subgrid)), order), dirs0, log0,
      SubdirOf(env, subgrid), outcome, log, dirs)
    ensures Follows(env, subgrid, dirs0, log0, outcome, log, dirs)
  {
  }

  /** Creating the working directory first (empty when it did not exist) does not
      change what the call is seen to do. */
  lemma FollowsAfterMakedirs(env: Env, subgrid: string, dirs0: map<string, set<string>>,
                             dirs1: map<string, set<string>>, log0: seq<string>,
                             outcome: SubgridOutcome, log: seq<string>, dirs: map<string, set<string>>)
    requires dirs1 == dirs0[SubdirOf(env, subgrid) := Listing(dirs0, SubdirOf(env, subgrid))]
    requires Follows(env, subgrid, dirs1, log0, outcome, log, dirs)
    ensures Follows(env, subgrid, dirs0, log0, outcome, log, dirs)
  {
    var subdir := SubdirOf(env, subgrid);
    assert Listing(dirs1, subdir) == Listing(dirs0, subdir);
    var order :| IsCompletionOrder(order, Tasks(env, subgrid, Listing(dirs1, subdir))) &&
      Agrees(Run(env, subgrid, Listing(dirs1, subdir), order), dirs1, log0, subdir, outcome, log, dirs);
    AgreesAfterUpdate(Run(env, subgrid, Listing(dirs0, subdir), order), dirs0, dirs1, log0, subdir, outcome, log, dirs);
  }

  /** Replacing the entries of the one directory an effect sets does not change what it leads to. */
  lemma AgreesAfterUpdate(e: Effect, dirs0: map<string, set<string>>, dirs1: map<string, set<string>>, log0: seq<string>,
                          subdir: string, outcome: SubgridOutcome, log: seq<string>, dirs: map<string, set<string>>)
    requires subdir in dirs1 && dirs1 == dirs0[subdir := dirs1[subdir]]
    requires Agrees(e, dirs1, log0, subdir, outcome, log, dirs)
    ensures Agrees(e, dirs0, log0, subdir, outcome, log, dirs)
  {
    assert dirs1[subdir := e.listing] == dirs0[subdir := e.listing];
  }

  /** Three successive additions to one directory add their union. */
  lemma ThreeAdditions(d0: map<string, set<string>>, d1: map<string, set<string>>, d2: map<string, set<string>>,
                       d3: map<string, set<string>>, k: string, a: set<string>, b: set<string>, c: set<string>)
    requires k in d0
    requires d1 == d0[k := d0[k] + a] && d2 == d1[k := d1[k] + b] && d3 == d2[k := d2[k] + c]
    ensures d3 == d0[k := d0[k] + a + b + c]
  {
  }

  /** Setting the entries of a directory twice keeps the second. */
  lemma UpdateAgain(d0: map<string, set<string>>, d1: map<string, set<string>>, k: string, x: set<string>, last: set<string>)
    requires d1 == d0[k := x]
    ensures d1[k := last] == d0[k := last]
  {
  }

  /** Adding a name a directory already holds changes nothing. */
  lemma AddPresent(dirs: map<string, set<string>>, subdir: string, name: string)
    requires subdir in dirs && name in dirs[subdir]
    ensures dirs == dirs[subdir := dirs[subdir] + {name}]
  {
    assert dirs[subdir] + {name} == dirs[subdir];
  }

  /** Adding nothing to one directory leaves the whole map as it was. */
  lemma UpdateSame(dirs: map<string, set<string>>, subdir: string, added: set<string>)
    requires subdir in dirs && added == {}
    ensures dirs[subdir := dirs[subdir] + added] == dirs
  {
    assert dirs[subdir] + added == dirs[subdir];
  }

  /** Adding one name after a union; a name already present adds nothing. */
  lemma AddName(base: set<string>, added: set<string>, f: string)
    ensures base + (added + {f}) == base + added + {f}
    ensures f in base + added ==> base + (added + {f}) == base + added
  {
  }

  /** One more overlap entry: a placeholder adds nothing, any other file adds its
      staged path and its staging name. */
  lemma StageStep(subdir: string, overlap: seq<Entry>, i: nat)
    requires i < |overlap|
    ensures IsPlaceholder(overlap[i].name) ==>
      LocalLas(subdir, overlap[..i + 1]) == LocalLas(subdir, overlap[..i]) &&
      StagedNames(overlap[..i + 1]) == StagedNames(overlap[..i])
    ensures !IsPlaceholder(overlap[i].name) ==>
      LocalLas(subdir, overlap[..i + 1]) == LocalLas(subdir, overlap[..i]) + [Join(subdir, StagingName(overlap[i].name))] &&
      StagedNames(overlap[..i + 1]) == StagedNames(overlap[..i]) + {StagingName(overlap[i].name)}
  {
    PrefixSnoc(overlap, i);
    AppendEmpty(LocalLas(subdir, overlap[..i]));
  }

  /** Removing the k-th element leaves the rest of the multiset. */
  lemma TakeOut(s: seq<string>, k: nat)
    requires k < |s|
    ensures multiset(s) == multiset(s[..k] + s[k + 1..]) + multiset{s[k]}
    ensures |s[..k] + s[k + 1..]| < |s|
  {
    assert s == s[..k] + [s[k]] + s[k + 1..];
  }

  /** One more completed task: its result or its error is added at the end. */
  lemma JoinStep(subgrid: string, task: string -> TaskResult, order: seq<string>, las: string)
    ensures task(las).Cropped? ==>
      Gather(ResultPaths(task), order + [las]) == Gather(ResultPaths(task), order) + [task(las).path] &&
      Gather(ResultErrors(subgrid, task), order + [las]) == Gather(ResultErrors(subgrid, task), order) &&
      ResultWrites(task, order + [las]) == ResultWrites(task, order) + {CropPrefix + Basename(las)}
    ensures task(las).Failed? ==>
      Gather(ResultPaths(task), order + [las]) == Gather(ResultPaths(task), order) &&
      Gather(ResultErrors(subgrid, task), order + [las]) ==
        Gather(ResultErrors(subgrid, task), order) + [CropMessage(subgrid, task(las).error)] &&
      ResultWrites(task, order + [las]) == ResultWrites(task, order)
  {
    assert (order + [las])[..|order|] == order;
    AppendEmpty(Gather(ResultPaths(task), order));
    AppendEmpty(Gather(ResultErrors(subgrid, task), order));
  }

  /** Only which tasks ran matters to what they write, not their order. */
  lemma WritesSame(task: string -> TaskResult, a: seq<string>, b: seq<string>)
    requires multiset(a) == multiset(b)
    ensures ResultWrites(task, a) == ResultWrites(task, b)
  {
    forall las ensures las in a <==> las in b {
      assert las in a <==> las in multiset(a);
      assert las in b <==> las in multiset(b);
    }
  }

  lemma SurvivorsStep(subdir: string, listing: set<string>, remaining: set<string>, f: string, removeFails: string -> bool)
    requires f in remaining && remaining <= listing
    ensures var gone := listing - (remaining - {f});
      (remaining - {f}) + Survivors(subdir, gone, removeFails) ==
        if !KeepOnCleanup(f) && !removeFails(Join(subdir, f))
        then (remaining + Survivors(subdir, listing - remaining, removeFails)) - {f}
        else remaining + Survivors(subdir, listing - remaining, removeFails)
  {
  }

  // ---------------------------------------------------------------- properties: crop join

  /** Joining two runs of completions one after the other concatenates what they contribute. */
  lemma {:induction false} GatherAppend(f: string -> seq<string>, a: seq<string>, b: seq<string>)
    ensures Gather(f, a + b) == Gather(f, a) + Gather(f, b)
  {
    if b == [] {
      AppendEmpty(a);
      AppendEmpty(Gather(f, a));
    } else {
      var front := b[..|b| - 1];
      GatherAppend(f, a, front);
      SplitLast(a, b);
      AppendAssoc(Gather(f, a), Gather(f, front), f(b[|b| - 1]));
    }
  }

  /** Something is gathered exactly when some completed task contributed it. */
  lemma {:induction false} GatherMembership(f: string -> seq<string>, order: seq<string>, x: string)
    ensures x in Gather(f, order) <==> exists i :: 0 <= i < |order| && x in f(order[i])
  {
    if order != [] {
      var front, last := order[..|order| - 1], order[|order| - 1];
      GatherMembership(f, front, x);
      assert Gather(f, order) == Gather(f, front) + f(last);
      if x in Gather(f, front) {
        var i :| 0 <= i < |front| && x in f(front[i]);
        assert order[i] == front[i];
      } else if x in f(last) {
        assert x in f(order[|order| - 1]);
      }
      if exists i :: 0 <= i < |order| && x in f(order[i]) {
        var i :| 0 <= i < |order| && x in f(order[i]);
        if i < |front| {
          assert x in f(front[i]);
        }
      }
    }
  }

  /** Two contributions of which each task makes exactly one gather one item per task. */
  lemma {:induction false} GatherCount(f: string -> seq<string>, g: string -> seq<string>, order: seq<string>)
    requires forall las :: |f(las)| + |g(las)| == 1
    ensures |Gather(f, order)| + |Gather(g, order)| == |order|
  {
    if order != [] {
      GatherCount(f, g, order[..|order| - 1]);
    }
  }

  /** Any rearrangement of the completions gathers the same items, in another order. */
  lemma {:induction false} GatherPermutation(f: string -> seq<string>, o1: seq<string>, o2: seq<string>)
    requires multiset(o1) == multiset(o2)
    ensures multiset(Gather(f, o1)) == multiset(Gather(f, o2))
    decreases |o1|
  {
    if o1 == [] {
      assert |o2| == |multiset(o2)| == 0;
    } else {
      var x := o1[|o1| - 1];
      assert x in multiset(o2);
      var j :| 0 <= j < |o2| && o2[j] == x;
      var rest := o2[..j] + o2[j + 1..];
      RemoveMatching(o1, o2, j);
      GatherPermutation(f, o1[..|o1| - 1], rest);
      GatherWithout(f, o2, j);
      assert Gather(f, o1) == Gather(f, o1[..|o1| - 1]) + f(x);
    }
  }

  /** Removing the same element from two rearrangements of each other leaves two
      rearrangements of each other. */
  lemma RemoveMatching(o1: seq<string>, o2: seq<string>, j: nat)
    requires multiset(o1) == multiset(o2) && o1 != [] && j < |o2| && o2[j] == o1[|o1| - 1]
    ensures multiset(o1[..|o1| - 1]) == multiset(o2[..j] + o2[j + 1..])
  {
    var x := o1[|o1| - 1];
    assert o1 == o1[..|o1| - 1] + [x];
    TakeOut(o2, j);
    assert multiset(o1[..|o1| - 1]) == multiset(o1) - multiset{x};
  }


  /** Gathering with the j-th completion taken out and put last gathers the same items. */
  lemma GatherWithout(f: string -> seq<string>, o: seq<string>, j: nat)
    requires j < |o|
    ensures multiset(Gather(f, o)) == multiset(Gather(f, o[..j] + o[j + 1..])) + multiset(f(o[j]))
  {
    SplitAt(o, j);
    var a, x, c := o[..j], o[j], o[j + 1..];
    assert Gather(f, a + [x]) == Gather(f, a) + f(x) by {
      assert (a + [x])[..|a|] == a;
    }
    GatherAppend(f, a + [x], c);
    GatherAppend(f, a, c);
    var ga, gc := Gather(f, a), Gather(f, c);
    assert multiset(ga + f(x) + gc) == multiset(ga) + multiset(f(x)) + multiset(gc);
    assert multiset(ga + gc) == multiset(ga) + multiset(gc);
  }

  /** Every crop task contributes exactly one thing at the join: an entry of
      cropped_files or an error_log entry. */
  lemma CropAccounting(job: Job, order: seq<string>)
    ensures |CroppedIn(job, order)| + |CropErrorsIn(job, order)| == |order|
  {
    var paths, errors := ResultPaths(Submitted(job)), ResultErrors(job.subgrid, Submitted(job));
    forall las ensures |paths(las)| + |errors(las)| == 1 {
    }
    GatherCount(paths, errors, order);
  }

  /** A path is in cropped_files exactly when some task returned it. */
  lemma CroppedMembership(job: Job, order: seq<string>, p: string)
    ensures p in CroppedIn(job, order) <==> exists i :: 0 <= i < |order| && CropTask(job, order[i]) == Cropped(p)
  {
    GatherMembership(ResultPaths(Submitted(job)), order, p);
  }

  /** A message is in the new error_log entries exactly when some task raised the error
      it reports. */
  lemma CropErrorMembership(job: Job, order: seq<string>, m: string)
    ensures m in CropErrorsIn(job, order) <==> exists i :: 0 <= i < |order| && IsCropError(job, order[i], m)
  {
    GatherMembership(ResultErrors(job.subgrid, Submitted(job)), order, m);
  }

  /** The task for lasPath raised, and m is the message the join logs for it. */
  predicate IsCropError(job: Job, lasPath: string, m: string) {
    CropTask(job, lasPath).Failed? && m == CropMessage(job.subgrid, CropTask(job, lasPath).error)
  }

  /** The completion order changes the order of cropped_files and of the new error_log
      entries, never their contents. */
  lemma CropOrderIrrelevant(job: Job, o1: seq<string>, o2: seq<string>)
    requires multiset(o1) == multiset(o2)
    ensures multiset(CroppedIn(job, o1)) == multiset(CroppedIn(job, o2))
    ensures multiset(CropErrorsIn(job, o1)) == multiset(CropErrorsIn(job, o2))
  {
    GatherPermutation(ResultPaths(Submitted(job)), o1, o2);
    GatherPermutation(ResultErrors(job.subgrid, Submitted(job)), o1, o2);
  }

  /** A task's result: on success the output is the CROP_ path of its input, it passed
      the guard, and the pipeline run read the input, cropped by the boundary polygon and
      wrote that path; on failure the error is the guard's or the pipeline's. */
  lemma CropTaskResult(job: Job, lasPath: string)
    ensures CropTask(job, lasPath).Cropped? ==>
      var p := CropTask(job, lasPath).path;
      p == CropPath(job.subdir, lasPath) && CheckLocalPath(p) == Allowed(p) &&
      job.run(CropPipeline(lasPath, job.wkt, p)) == Ran &&
      Inputs(CropPipeline(lasPath, job.wkt, p)) == [lasPath] &&
      Outputs(CropPipeline(lasPath, job.wkt, p)) == [(p, TargetSrs)]
    ensures CropTask(job, lasPath).Failed? ==>
      (CheckLocalPath(CropPath(job.subdir, lasPath)).PermissionError? && CropTask(job, lasPath).error == ZDriveMessage) ||
      job.run(CropPipeline(lasPath, job.wkt, CropPath(job.subdir, lasPath))) == Raised(CropTask(job, lasPath).error)
  {
    CropPipelineMeaning(lasPath, job.wkt, CropPath(job.subdir, lasPath));
  }

  /** Once the merged path of a subgrid has passed the guard, no crop task of that
      subgrid can be refused by it: both paths lie in the same working directory. */
  lemma CropGuardFollowsMerge(subdir: string, subgrid: string, lasPath: string)
    requires |subdir| >= 2
    requires CheckLocalPath(MergedPath(subdir, subgrid)).Allowed?
    ensures CheckLocalPath(CropPath(subdir, lasPath)).Allowed?
  {
    GuardFollowsDirectory(subdir, subgrid + FinalSuffix, CropPrefix + Basename(lasPath));
  }

  // ---------------------------------------------------------------- properties: staging

  /** local_las holds the staged path of exactly the entries that are not placeholders. */
  lemma {:induction false} StagedPaths(subdir: string, overlap: seq<Entry>, p: string)
    ensures |LocalLas(subdir, overlap)| <= |overlap|
    ensures p in LocalLas(subdir, overlap) <==>
      exists i :: 0 <= i < |overlap| && !IsPlaceholder(overlap[i].name) && p == Join(subdir, StagingName(overlap[i].name))
  {
    if overlap != [] {
      var front := overlap[..|overlap| - 1];
      StagedPaths(subdir, front, p);
      assert forall i :: 0 <= i < |front| ==> front[i] == overlap[i];
      if p in LocalLas(subdir, front) {
        var i :| 0 <= i < |front| && !IsPlaceholder(front[i].name) && p == Join(subdir, StagingName(front[i].name));
        assert overlap[i] == front[i];
      }
    }
  }

  /** A "Convert to las" placeholder is recognised whatever its case and spacing. */
  lemma PlaceholderRecognised()
    ensures IsPlaceholder("_Convert to las.las")
    ensures !IsPlaceholder("X_convert.las")
  {
    var name := "_Convert to las.las";
    forall i | 0 <= i < |name|
      ensures StagingName(name)[i] == PlaceholderMarker[i]
    {
    }
    assert StagingName(name) == PlaceholderMarker;
    assert OccursAt(StagingName(name), PlaceholderMarker, 0);
  }

  /** Two overlap entries whose names differ only in case and spacing are staged under
      one name: the second copy is skipped and local_las lists the same path twice. */
  lemma StagingCollision(subdir: string, p1: string, p2: string)
    ensures var overlap := [Entry("Tile A.las", p1), Entry("tile_a.las", p2)];
      LocalLas(subdir, overlap) == [Join(subdir, "tile_a.las"), Join(subdir, "tile_a.las")] &&
      StagedNames(overlap) == {"tile_a.las"}
  {
    var overlap := [Entry("Tile A.las", p1), Entry("tile_a.las", p2)];
    assert Lower("Tile A.las") == "tile a.las";
    assert StagingName("Tile A.las") == "tile_a.las";
    assert Lower("tile_a.las") == "tile_a.las";
    assert StagingName("tile_a.las") == "tile_a.las";
    assert !IsPlaceholder("tile_a.las");
    assert overlap[..1] == [overlap[0]] && [overlap[0]][..0] == [];
    assert LocalLas(subdir, overlap[..1]) == [Join(subdir, "tile_a.las")];
  }

  // ---------------------------------------------------------------- properties: one call

  /** The merge runs only when something was cropped; it then adds exactly one thing:
      the final file or one error_log entry, and its pipeline reads the cropped files in
      list order and writes only the merged file. */
  lemma MergeOnlyIfCropped(job: Job, cropped: seq<string>, merged: string)
    ensures cropped == [] ==> MergeErrors(job, cropped, merged) == [] && MergeWrites(job, cropped, merged) == {}
    ensures cropped != [] ==> |MergeErrors(job, cropped, merged)| + |MergeWrites(job, cropped, merged)| == 1
    ensures MergeWrites(job, cropped, merged) != {} <==> cropped != [] && job.run(MergePipeline(cropped, merged)) == Ran
    ensures cropped != [] ==>
      Inputs(MergePipeline(cropped, merged)) == cropped &&
      Outputs(MergePipeline(cropped, merged)) == [(merged, TargetSrs)]
  {
    MergePipelineMeaning(cropped, merged);
  }

  /** Cleanup keeps every final and every GeoJSON file, and removes every other entry
      unless its removal fails; it never adds anything. */
  lemma CleanupKeeps(subdir: string, listing: set<string>, removeFails: string -> bool, f: string)
    ensures Survivors(subdir, listing, removeFails) <= listing
    ensures f in listing && KeepOnCleanup(f) ==> f in Survivors(subdir, listing, removeFails)
    ensures f in listing && !KeepOnCleanup(f) ==>
      (f in Survivors(subdir, listing, removeFails) <==> removeFails(Join(subdir, f)))
  {
  }

  /** Every crop task of a processed subgrid is accounted for once, and the call adds at
      most one error_log entry beyond them (the merge's). */
  lemma ProcessedAccounting(env: Env, subgrid: string, listing0: set<string>, order: seq<string>)
    requires IsCompletionOrder(order, Tasks(env, subgrid, listing0))
    requires Run(env, subgrid, listing0, order).outcome.Processed?
    ensures var e := Run(env, subgrid, listing0, order);
      |e.outcome.localLas| <= |e.outcome.cropped| + |e.errors| <= |e.outcome.localLas| + 1
  {
    var subdir := SubdirOf(env, subgrid);
    var b := BoundaryFile(env, subgrid).value;
    var job := JobOf(env, subgrid, b);
    var merged := CheckLocalPath(MergedPath(subdir, subgrid)).path;
    RunFound(env, subgrid, listing0, b, merged, order);
    CropAccounting(job, order);
    assert |order| == |multiset(order)| == |Tasks(env, subgrid, listing0)|;
    MergeOnlyIfCropped(job, CroppedIn(job, order), merged);
  }

  /** Only a processed subgrid adds error_log entries; every other outcome leaves the
      log as it was. */
  lemma OnlyProcessedLogs(env: Env, subgrid: string, listing0: set<string>, order: seq<string>)
    requires !Run(env, subgrid, listing0, order).outcome.Processed?
    ensures Run(env, subgrid, listing0, order).errors == []
  {
  }

  /** After a call whose merge succeeded, the next call on the same subgrid is skipped:
      the final file survives cleanup and satisfies the completion test. */
  lemma SecondCallSkips(env: Env, subgrid: string, listing0: set<string>, order: seq<string>, later: seq<string>)
    requires Run(env, subgrid, listing0, order).outcome.Processed?
    requires MergeWrites(JobOf(env, subgrid, Run(env, subgrid, listing0, order).outcome.boundaryFile),
      Run(env, subgrid, listing0, order).outcome.cropped,
      CheckLocalPath(MergedPath(SubdirOf(env, subgrid), subgrid)).path) != {}
    ensures var after := Run(env, subgrid, listing0, order).listing;
      Run(env, subgrid, after, later) == Effect(AlreadyDone, [], after)
  {
    var subdir := SubdirOf(env, subgrid);
    var b := Run(env, subgrid, listing0, order).outcome.boundaryFile;
    var merged := CheckLocalPath(MergedPath(subdir, subgrid)).path;
    RunFound(env, subgrid, listing0, b, merged, order);
    var overlap := OverlapOf(env, subgrid, b);
    var job := JobOf(env, subgrid, b);
    var cropped := CroppedIn(job, order);
    FinalSurvives(subdir, subgrid, listing0 + {Basename(b)} + StagedNames(overlap) +
      CropWrites(job, LocalLas(subdir, overlap)), MergeWrites(job, cropped, merged), env.removeFails);
  }

  /** The merged file's name passes the completion test and survives cleanup, so a
      listing it was written into counts as finished afterwards. */
  lemma FinalSurvives(subdir: string, subgrid: string, listing: set<string>, written: set<string>,
                      removeFails: string -> bool)
    requires written == {subgrid + FinalSuffix}
    ensures AlreadyFinished(Survivors(subdir, listing + written, removeFails))
  {
    var name := subgrid + FinalSuffix;
    assert name[|name| - |FinalSuffix|..] == FinalSuffix;
    assert IsFinalName(name) && KeepOnCleanup(name);
    assert name in Survivors(subdir, listing + written, removeFails);
  }
}
