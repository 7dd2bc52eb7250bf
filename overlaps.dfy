/** Overlap scan (find_overlap_las): the point-cloud files of the archive whose header
    bounds intersect the subgrid box, as an insertion-ordered map from file name to
    path in which the first overlapping occurrence of a name wins. */
module Overlaps {
  import opened Paths
  import opened Walk
  import opened Seqs

  /** An axis-aligned rectangle given by its corner coordinates, as
      shapely.geometry.box(xmin, ymin, xmax, ymax) takes them. */
  datatype Box = Box(xmin: real, ymin: real, xmax: real, ymax: real)

  function Min(a: real, b: real): real { if a <= b then a else b }
  function Max(a: real, b: real): real { if a <= b then b else a }

  /** Box.intersects: the two closed rectangles share a point. A box built from
      swapped corners covers the same rectangle, so each side is read as the span
      between its two coordinates. */
  predicate Intersects(a: Box, b: Box) {
    && Min(a.xmin, a.xmax) <= Max(b.xmin, b.xmax)
    && Min(b.xmin, b.xmax) <= Max(a.xmin, a.xmax)
    && Min(a.ymin, a.ymax) <= Max(b.ymin, b.ymax)
    && Min(b.ymin, b.ymax) <= Max(a.ymin, a.ymax)
  }

  predicate Ordered(b: Box) {
    b.xmin <= b.xmax && b.ymin <= b.ymax
  }

  /** For boxes given min-corner first, the test is the closed-interval overlap on both axes. */
  lemma IntersectsClosedIntervals(a: Box, b: Box)
    requires Ordered(a) && Ordered(b)
    ensures Intersects(a, b) <==>
      a.xmin <= b.xmax && b.xmin <= a.xmax && a.ymin <= b.ymax && b.ymin <= a.ymax
  {
  }

  lemma IntersectsSymmetric(a: Box, b: Box)
    ensures Intersects(a, b) <==> Intersects(b, a)
  {
  }

  /** Boxes that only share an edge intersect. */
  lemma TouchingEdgesIntersect(a: Box, b: Box)
    requires Ordered(a) && Ordered(b)
    requires a.xmax == b.xmin && a.ymin <= b.ymax && b.ymin <= a.ymax
    ensures Intersects(a, b)
  {
  }

  /** The extension test f.lower().endswith(".las"). */
  predicate IsLas(f: string) {
    EndsWith(Lower(f), ".las")
  }

  /** One item of the ordered map: file name and the path it was found at. */
  datatype Entry = Entry(name: string, path: string)

  /** The keys of the ordered map, in insertion order. */
  function Keys(m: seq<Entry>): (ks: seq<string>)
    ensures |ks| == |m|
    ensures forall i :: 0 <= i < |m| ==> ks[i] == m[i].name
  {
    seq(|m|, i requires 0 <= i < |m| => m[i].name)
  }

  /** A file the scan would insert were its name not yet a key: a .las name whose
      header can be read and whose header box meets the subgrid box. The header read
      is an oracle from path to bounds, None standing for a raised exception. */
  predicate Overlapping(p: Pos, header: string -> Option<Box>, subgrid: Box) {
    IsLas(p.name) && header(p.Path()).Some? && Intersects(header(p.Path()).value, subgrid)
  }

  /** One iteration of the inner loop body. */
  function Step(m: seq<Entry>, p: Pos, header: string -> Option<Box>, subgrid: Box): seq<Entry> {
    if !IsLas(p.name) || p.name in Keys(m) then m
    else match header(p.Path())
      case None => m
      case Some(b) => if Intersects(b, subgrid) then m + [Entry(p.name, p.Path())] else m
  }

  /** The map after the loop body has run over the files ps, in order. */
  function Scan(ps: seq<Pos>, header: string -> Option<Box>, subgrid: Box): seq<Entry> {
    if ps == [] then [] else Step(Scan(ps[..|ps| - 1], header, subgrid), ps[|ps| - 1], header, subgrid)
  }

  /** find_overlap_las over a given walk of the archive: the outer loop over roots. */
  method FindOverlapLas(walk: seq<Dir>, header: string -> Option<Box>, subgrid: Box)
    returns (overlap: seq<Entry>)
    ensures overlap == Scan(Flatten(walk), header, subgrid)
  {
    overlap := [];
    var i := 0;
    while i < |walk|
      invariant 0 <= i <= |walk|
      invariant overlap == Scan(Flatten(walk[..i]), header, subgrid)
    {
      FlattenStep(walk, i);
      overlap := ScanRoot(overlap, walk[i], header, subgrid, Flatten(walk[..i]));
      i := i + 1;
    }
    WholePrefix(walk);
  }

  /** The inner loop of find_overlap_las over the files of one root, extending the map
      built from the files seen before. */
  method ScanRoot(m: seq<Entry>, d: Dir, header: string -> Option<Box>, subgrid: Box, ghost seen: seq<Pos>)
    returns (overlap: seq<Entry>)
    requires m == Scan(seen, header, subgrid)
    ensures overlap == Scan(seen + Entries(d), header, subgrid)
  {
    overlap := m;
    ghost var visited := seen;
    EmptyPrefix(Entries(d));
    AppendEmpty(seen);
    var j := 0;
    while j < |d.files|
      invariant 0 <= j <= |d.files|
      invariant visited == seen + Entries(d)[..j]
      invariant overlap == Scan(visited, header, subgrid)
    {
      var f := d.files[j];
      ghost var before := overlap;
      if EndsWith(Lower(f), ".las") {
        if f !in Keys(overlap) {
          var lasPath := Join(d.root, f);
          var bounds := header(lasPath);
          if bounds.Some? && Intersects(bounds.value, subgrid) {
            overlap := overlap + [Entry(f, lasPath)];
          }
        }
      }
      assert overlap == Step(before, Pos(d.root, f), header, subgrid);
      ScanStep(visited, Pos(d.root, f), header, subgrid);
      PrefixStep(seen, Entries(d), j);
      visited := visited + [Pos(d.root, f)];
      j := j + 1;
    }
    WholePrefix(Entries(d));
  }

  lemma PrefixStep(seen: seq<Pos>, es: seq<Pos>, j: nat)
    requires j < |es|
    ensures seen + es[..j + 1] == seen + es[..j] + [es[j]]
  {
    assert es[..j + 1] == es[..j] + [es[j]];
  }

  /** One iteration either leaves the map alone or appends the file under a new key. */
  lemma StepKeys(m: seq<Entry>, p: Pos, header: string -> Option<Box>, subgrid: Box)
    ensures var m' := Step(m, p, header, subgrid);
      || m' == m
      || (m' == m + [Entry(p.name, p.Path())] && Keys(m') == Keys(m) + [p.name] &&
          p.name !in Keys(m) && Overlapping(p, header, subgrid))
  {
    var m' := Step(m, p, header, subgrid);
    if m' != m {
      assert Keys(m') == Keys(m) + [p.name];
    }
  }

  /** Scanning one more file is one more loop iteration. */
  lemma ScanStep(ps: seq<Pos>, p: Pos, header: string -> Option<Box>, subgrid: Box)
    ensures Scan(ps + [p], header, subgrid) == Step(Scan(ps, header, subgrid), p, header, subgrid)
  {
    assert (ps + [p])[..|ps|] == ps;
  }

  /** The position k holds the first overlapping occurrence of its name. */
  predicate FirstOverlapping(ps: seq<Pos>, k: nat, header: string -> Option<Box>, subgrid: Box)
    requires k < |ps|
  {
    && Overlapping(ps[k], header, subgrid)
    && forall j :: 0 <= j < k ==> Overlapping(ps[j], header, subgrid) ==> ps[j].name != ps[k].name
  }

  /** Reference definition of the result: the first overlapping occurrence of every
      name, in walk order, each with the path it was found at. */
  function FirstOccurrences(ps: seq<Pos>, n: nat, header: string -> Option<Box>, subgrid: Box): seq<Entry>
    requires n <= |ps|
  {
    if n == 0 then []
    else
      var earlier := FirstOccurrences(ps, n - 1, header, subgrid);
      if FirstOverlapping(ps, n - 1, header, subgrid) then earlier + [Entry(ps[n - 1].name, ps[n - 1].Path())]
      else earlier
  }

  /** A name is already a key exactly when an earlier file of that name overlapped:
      unreadable and non-overlapping occurrences leave no trace. */
  lemma {:induction false} KeyIffOverlappedBefore(ps: seq<Pos>, f: string, header: string -> Option<Box>, subgrid: Box)
    ensures f in Keys(Scan(ps, header, subgrid)) <==>
      exists j :: 0 <= j < |ps| && Overlapping(ps[j], header, subgrid) && ps[j].name == f
  {
    if ps != [] {
      var front := ps[..|ps| - 1];
      var last := ps[|ps| - 1];
      KeyIffOverlappedBefore(front, f, header, subgrid);
      var m := Scan(front, header, subgrid);
      assert Scan(ps, header, subgrid) == Step(m, last, header, subgrid);
      StepKeys(m, last, header, subgrid);
      if exists j :: 0 <= j < |ps| && Overlapping(ps[j], header, subgrid) && ps[j].name == f {
        var j :| 0 <= j < |ps| && Overlapping(ps[j], header, subgrid) && ps[j].name == f;
        if j < |ps| - 1 {
          assert front[j] == ps[j];
        }
      }
      if f in Keys(Scan(ps, header, subgrid)) && f !in Keys(m) {
        assert ps[|ps| - 1] == last;
      }
    }
  }

  /** The scan computes exactly the reference definition: completeness, soundness,
      first-occurrence and walk order in one statement. */
  lemma {:induction false} ScanIsFirstOccurrences(ps: seq<Pos>, header: string -> Option<Box>, subgrid: Box)
    ensures Scan(ps, header, subgrid) == FirstOccurrences(ps, |ps|, header, subgrid)
  {
    if ps != [] {
      var front := ps[..|ps| - 1];
      var last := ps[|ps| - 1];
      ScanIsFirstOccurrences(front, header, subgrid);
      FirstOccurrencesOfPrefix(ps, |ps| - 1, header, subgrid);
      KeyIffOverlappedBefore(front, last.name, header, subgrid);
      var k := |ps| - 1;
      assert forall j :: 0 <= j < |front| ==> front[j] == ps[j];
      if FirstOverlapping(ps, k, header, subgrid) {
      } else if Overlapping(last, header, subgrid) {
        var j :| 0 <= j < k && Overlapping(ps[j], header, subgrid) && ps[j].name == last.name;
        assert front[j] == ps[j];
      }
    }
  }

  /** The reference definition on a prefix of ps only looks at that prefix. */
  lemma {:induction false} FirstOccurrencesOfPrefix(ps: seq<Pos>, n: nat, header: string -> Option<Box>, subgrid: Box)
    requires n <= |ps|
    ensures FirstOccurrences(ps, n, header, subgrid) == FirstOccurrences(ps[..n], n, header, subgrid)
    decreases n
  {
    if n > 0 {
      FirstOccurrencesOfPrefix(ps, n - 1, header, subgrid);
      FirstOccurrencesOfPrefix(ps[..n], n - 1, header, subgrid);
      assert ps[..n][..n - 1] == ps[..n - 1];
      assert FirstOverlapping(ps, n - 1, header, subgrid) <==> FirstOverlapping(ps[..n], n - 1, header, subgrid);
    }
  }

  predicate KeysUnique(m: seq<Entry>) {
    forall i, j :: 0 <= i < j < |m| ==> m[i].name != m[j].name
  }

  /** No name is a key twice. */
  lemma {:induction false} ScanKeysDistinct(ps: seq<Pos>, header: string -> Option<Box>, subgrid: Box)
    ensures KeysUnique(Scan(ps, header, subgrid))
  {
    if ps != [] {
      var front := Scan(ps[..|ps| - 1], header, subgrid);
      ScanKeysDistinct(ps[..|ps| - 1], header, subgrid);
      StepKeys(front, ps[|ps| - 1], header, subgrid);
      var p := ps[|ps| - 1];
      var m := Scan(ps, header, subgrid);
      assert m == Step(front, p, header, subgrid);
      if m != front {
        assert m == front + [Entry(p.name, p.Path())] && p.name !in Keys(front);
        forall i, j | 0 <= i < j < |m|
          ensures m[i].name != m[j].name
        {
          assert m[i] == front[i];
          if j == |front| {
            assert Keys(front)[i] == front[i].name;
            assert m[j].name == p.name;
            assert front[i].name in Keys(front);
          } else {
            assert m[i] == front[i] && m[j] == front[j];
          }
        }
      }
    }
  }

  /** Every entry is a readable .las file found in the walk whose header box meets
      the subgrid box, recorded under its own name and path. */
  lemma {:induction false} ScanEntriesOverlap(ps: seq<Pos>, header: string -> Option<Box>, subgrid: Box)
    ensures forall e :: e in Scan(ps, header, subgrid) ==>
      exists k :: 0 <= k < |ps| && e == Entry(ps[k].name, ps[k].Path()) && Overlapping(ps[k], header, subgrid)
  {
    if ps != [] {
      var front := ps[..|ps| - 1];
      ScanEntriesOverlap(front, header, subgrid);
      StepKeys(Scan(front, header, subgrid), ps[|ps| - 1], header, subgrid);
      forall e | e in Scan(ps, header, subgrid)
        ensures exists k :: 0 <= k < |ps| && e == Entry(ps[k].name, ps[k].Path()) && Overlapping(ps[k], header, subgrid)
      {
        if e in Scan(front, header, subgrid) {
          var k :| 0 <= k < |front| && e == Entry(front[k].name, front[k].Path()) && Overlapping(front[k], header, subgrid);
          assert front[k] == ps[k];
        } else {
          assert e == Entry(ps[|ps| - 1].name, ps[|ps| - 1].Path());
        }
      }
    }
  }

  /** Completeness: the first overlapping occurrence of every name is in the result,
      whatever unreadable or non-overlapping files of that name came before it. */
  lemma ScanComplete(ps: seq<Pos>, k: nat, header: string -> Option<Box>, subgrid: Box)
    requires k < |ps| && FirstOverlapping(ps, k, header, subgrid)
    ensures Entry(ps[k].name, ps[k].Path()) in Scan(ps, header, subgrid)
  {
    ScanIsFirstOccurrences(ps, header, subgrid);
    FirstOccurrencesKeep(ps, k, |ps|, header, subgrid);
  }

  lemma {:induction false} FirstOccurrencesKeep(ps: seq<Pos>, k: nat, n: nat, header: string -> Option<Box>, subgrid: Box)
    requires k < n <= |ps| && FirstOverlapping(ps, k, header, subgrid)
    ensures Entry(ps[k].name, ps[k].Path()) in FirstOccurrences(ps, n, header, subgrid)
    decreases n
  {
    if k < n - 1 {
      FirstOccurrencesKeep(ps, k, n - 1, header, subgrid);
    }
  }

  /** An earlier file of the same name whose header cannot be read does not keep a
      later overlapping one out. */
  lemma UnreadableDoesNotBlock(first: Pos, later: Pos, header: string -> Option<Box>, subgrid: Box)
    requires first.name == later.name && header(first.Path()).None?
    requires Overlapping(later, header, subgrid)
    ensures Scan([first, later], header, subgrid) == [Entry(later.name, later.Path())]
  {
    assert [first, later][..1] == [first];
    assert [first][..0] == [];
    assert Scan([first], header, subgrid) == Step([], first, header, subgrid);
    assert Scan([first, later], header, subgrid) == Step(Scan([first], header, subgrid), later, header, subgrid);
  }

  /** Nor does an earlier file of the same name whose box misses the subgrid box. */
  lemma MissDoesNotBlock(first: Pos, later: Pos, header: string -> Option<Box>, subgrid: Box)
    requires first.name == later.name && header(first.Path()).Some?
    requires !Intersects(header(first.Path()).value, subgrid)
    requires Overlapping(later, header, subgrid)
    ensures Scan([first, later], header, subgrid) == [Entry(later.name, later.Path())]
  {
    assert [first, later][..1] == [first];
    assert [first][..0] == [];
    assert Scan([first], header, subgrid) == Step([], first, header, subgrid);
    assert Scan([first, later], header, subgrid) == Step(Scan([first], header, subgrid), later, header, subgrid);
  }

  /** Of two overlapping files with the same name, the one met first is kept. */
  lemma FirstOverlappingWins(first: Pos, later: Pos, header: string -> Option<Box>, subgrid: Box)
    requires first.name == later.name
    requires Overlapping(first, header, subgrid) && Overlapping(later, header, subgrid)
    ensures Scan([first, later], header, subgrid) == [Entry(first.name, first.Path())]
  {
    assert [first, later][..1] == [first];
    assert [first][..0] == [];
    assert Scan([first], header, subgrid) == Step([], first, header, subgrid);
    assert Scan([first, later], header, subgrid) == Step(Scan([first], header, subgrid), later, header, subgrid);
    assert Scan([first], header, subgrid) == [Entry(first.name, first.Path())];
    assert Keys([Entry(first.name, first.Path())]) == [first.name];
    assert later.name in Keys(Scan([first], header, subgrid));
  }
}
