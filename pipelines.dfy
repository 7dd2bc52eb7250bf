/** The declarative pipeline descriptions handed to PDAL: ordered stage lists for
    cropping one file and for merging the cropped files. */
module Pipelines {
  import opened Seqs

  /** The reference system every written file is tagged with. */
  const TargetSrs: string := "EPSG:32748"

  /** One stage of a pipeline description. */
  datatype Stage =
    | Source(path: string)                   // a bare file name; PDAL picks the reader
    | ReadLas(filename: string)              // {"type": "readers.las", "filename": ...}
    | CropFilter(polygon: string)            // {"type": "filters.crop", "polygon": wkt}
    | MergeFilter                            // {"type": "filters.merge"}
    | WriteLas(filename: string, srs: string) // {"type": "writers.las", "filename": ..., "a_srs": ...}

  type Pipeline = seq<Stage>

  /** run_pipeline as seen by its caller: it returns, or raises with a message. */
  datatype RunResult = Ran | Raised(message: string)

  /** The crop pipeline of crop_task. */
  function CropPipeline(lasPath: string, wkt: string, cropped: string): Pipeline {
    [Source(lasPath), CropFilter(wkt), WriteLas(cropped, TargetSrs)]
  }

  /** One readers.las stage per file, in the order given. */
  function Readers(files: seq<string>): (p: Pipeline)
    ensures |p| == |files|
  {
    if files == [] then [] else Readers(files[..|files| - 1]) + [ReadLas(files[|files| - 1])]
  }

  /** The merge pipeline: every cropped file read, one merge, one write. */
  function MergePipeline(cropped: seq<string>, merged: string): Pipeline {
    Readers(cropped) + [MergeFilter, WriteLas(merged, TargetSrs)]
  }

  /** The files a pipeline reads, in stage order. */
  function Inputs(p: Pipeline): seq<string> {
    if p == [] then [] else Inputs(p[..|p| - 1]) + StageInputs(p[|p| - 1])
  }

  function StageInputs(s: Stage): seq<string> {
    match s
    case Source(f) => [f]
    case ReadLas(f) => [f]
    case _ => []
  }

  /** The files a pipeline writes, with their reference system, in stage order. */
  function Outputs(p: Pipeline): seq<(string, string)> {
    if p == [] then [] else Outputs(p[..|p| - 1]) + StageOutputs(p[|p| - 1])
  }

  function StageOutputs(s: Stage): seq<(string, string)> {
    match s
    case WriteLas(f, srs) => [(f, srs)]
    case _ => []
  }

  /** How many merge stages a pipeline has. */
  function Merges(p: Pipeline): nat {
    if p == [] then 0 else Merges(p[..|p| - 1]) + if p[|p| - 1].MergeFilter? then 1 else 0
  }

  /** Concatenating pipelines concatenates what they read, write and merge. */
  lemma Append(p: Pipeline, q: Pipeline)
    ensures Inputs(p + q) == Inputs(p) + Inputs(q)
    ensures Outputs(p + q) == Outputs(p) + Outputs(q)
    ensures Merges(p + q) == Merges(p) + Merges(q)
  {
    InputsAppend(p, q);
    OutputsAppend(p, q);
    MergesAppend(p, q);
  }

  lemma {:induction false} InputsAppend(p: Pipeline, q: Pipeline)
    ensures Inputs(p + q) == Inputs(p) + Inputs(q)
  {
    if q == [] {
      assert p + q == p;
    } else {
      InputsAppend(p, q[..|q| - 1]);
      SplitLast(p, q);
    }
  }

  lemma {:induction false} OutputsAppend(p: Pipeline, q: Pipeline)
    ensures Outputs(p + q) == Outputs(p) + Outputs(q)
  {
    if q == [] {
      assert p + q == p;
    } else {
      OutputsAppend(p, q[..|q| - 1]);
      SplitLast(p, q);
    }
  }

  lemma {:induction false} MergesAppend(p: Pipeline, q: Pipeline)
    ensures Merges(p + q) == Merges(p) + Merges(q)
  {
    if q == [] {
      assert p + q == p;
    } else {
      MergesAppend(p, q[..|q| - 1]);
      SplitLast(p, q);
    }
  }

  lemma Single(s: Stage)
    ensures Inputs([s]) == StageInputs(s) && Outputs([s]) == StageOutputs(s)
    ensures Merges([s]) == if s.MergeFilter? then 1 else 0
  {
    assert [s][..0] == [];
  }

  /** The readers read exactly the given files and write and merge nothing. */
  lemma {:induction false} ReadersRead(files: seq<string>)
    ensures Inputs(Readers(files)) == files
    ensures Outputs(Readers(files)) == []
    ensures Merges(Readers(files)) == 0
  {
    if files != [] {
      var front, last := files[..|files| - 1], files[|files| - 1];
      ReadersRead(front);
      SplitLast(Readers(front), [ReadLas(last)]);
      assert front + [last] == files;
    }
  }

  /** The merge pipeline reads the cropped files in list order, merges once and writes
      only the merged file; it has two stages more than there are cropped files. */
  lemma MergePipelineMeaning(cropped: seq<string>, merged: string)
    ensures |MergePipeline(cropped, merged)| == |cropped| + 2
    ensures Inputs(MergePipeline(cropped, merged)) == cropped
    ensures Outputs(MergePipeline(cropped, merged)) == [(merged, TargetSrs)]
    ensures Merges(MergePipeline(cropped, merged)) == 1
    ensures MergePipeline(cropped, merged)[|cropped|] == MergeFilter
  {
    var tail := [MergeFilter, WriteLas(merged, TargetSrs)];
    ReadersRead(cropped);
    Append(Readers(cropped), tail);
    assert tail[..1] == [MergeFilter] && [MergeFilter][..0] == [];
  }

  /** The crop pipeline reads the one input, filters by the polygon and writes the
      one cropped file. */
  lemma CropPipelineMeaning(lasPath: string, wkt: string, cropped: string)
    ensures Inputs(CropPipeline(lasPath, wkt, cropped)) == [lasPath]
    ensures Outputs(CropPipeline(lasPath, wkt, cropped)) == [(cropped, TargetSrs)]
    ensures Merges(CropPipeline(lasPath, wkt, cropped)) == 0
    ensures CropPipeline(lasPath, wkt, cropped)[1] == CropFilter(wkt)
  {
    Single(Source(lasPath));
    Single(CropFilter(wkt));
    Single(WriteLas(cropped, TargetSrs));
    Append([Source(lasPath)], [CropFilter(wkt)]);
    Append([Source(lasPath), CropFilter(wkt)], [WriteLas(cropped, TargetSrs)]);
    assert [Source(lasPath), CropFilter(wkt)] == [Source(lasPath)] + [CropFilter(wkt)];
    assert CropPipeline(lasPath, wkt, cropped) == [Source(lasPath), CropFilter(wkt)] + [WriteLas(cropped, TargetSrs)];
  }
}
