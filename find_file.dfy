/** Boundary-file lookup (find_geojson): the first file of the boundary archive
    whose name has a GeoJSON extension and starts with the subgrid name. */
module FindFile {
  import opened Paths
  import opened Walk

  /** The extension test f.lower().endswith(".geojson"). */
  predicate IsGeojson(f: string) {
    EndsWith(Lower(f), ".geojson")
  }

  /** Both sides of the separator-tolerant comparison map '_' to '-'. */
  function Dashed(s: string): (r: string)
    ensures |r| == |s|
  {
    Replace(s, '_', '-')
  }

  /** The name test of the lookup: the first len(subgrid) characters of f equal the
      subgrid name exactly, or after '_' becomes '-' on both sides. */
  predicate NameMatches(subgrid: string, f: string) {
    var prefix := Take(f, |subgrid|);
    prefix == subgrid || Dashed(prefix) == Dashed(subgrid)
  }

  predicate Qualifies(subgrid: string, f: string) {
    IsGeojson(f) && NameMatches(subgrid, f)
  }

  /** The first qualifying file of ps, joined to its root; None when there is none. */
  function FirstMatch(subgrid: string, ps: seq<Pos>): (r: Option<string>)
    ensures r.None? <==> forall i :: 0 <= i < |ps| ==> !Qualifies(subgrid, ps[i].name)
    ensures r.Some? ==>
      exists i :: 0 <= i < |ps| && Qualifies(subgrid, ps[i].name) && r.value == ps[i].Path() &&
        forall j :: 0 <= j < i ==> !Qualifies(subgrid, ps[j].name)
  {
    if ps == [] then None
    else if Qualifies(subgrid, ps[0].name) then Some(ps[0].Path())
    else
      var r := FirstMatch(subgrid, ps[1..]);
      assert forall i :: 1 <= i < |ps| ==> ps[i] == ps[1..][i - 1];
      r
  }

  /** A qualifying file with no qualifying file before it is the one found. */
  lemma FirstMatchAt(subgrid: string, ps: seq<Pos>, k: nat)
    requires k < |ps| && Qualifies(subgrid, ps[k].name)
    requires forall j :: 0 <= j < k ==> !Qualifies(subgrid, ps[j].name)
    ensures FirstMatch(subgrid, ps) == Some(ps[k].Path())
  {
  }

  /** find_geojson: the walk over the roots, returning on the first match. */
  method FindGeojson(subgrid: string, walk: seq<Dir>) returns (r: Option<string>)
    ensures r == FirstMatch(subgrid, Flatten(walk))
  {
    var i := 0;
    while i < |walk|
      invariant 0 <= i <= |walk|
      invariant FirstMatch(subgrid, Flatten(walk[..i])).None?
    {
      var d := walk[i];
      var j := FirstInRoot(subgrid, d);
      RootVisited(subgrid, walk, i, j);
      if j < |d.files| {
        FoundIsFirst(subgrid, walk, i + 1);
        return Some(Join(d.root, d.files[j]));
      }
      i := i + 1;
    }
    assert walk[..|walk|] == walk;
    return None;
  }

  /** The inner loop of find_geojson over the files of one root: the index of the
      first qualifying file, or the number of files when none qualifies. */
  method FirstInRoot(subgrid: string, d: Dir) returns (j: nat)
    ensures j <= |d.files|
    ensures j < |d.files| ==> Qualifies(subgrid, d.files[j])
    ensures forall k :: 0 <= k < j ==> !Qualifies(subgrid, d.files[k])
  {
    j := 0;
    while j < |d.files|
      invariant j <= |d.files|
      invariant forall k :: 0 <= k < j ==> !Qualifies(subgrid, d.files[k])
    {
      var f := d.files[j];
      if IsGeojson(f) {
        var prefix := Take(f, |subgrid|);
        if prefix == subgrid || Dashed(prefix) == Dashed(subgrid) {
          return;
        }
      }
      j := j + 1;
    }
  }

  /** Searching a concatenation searches the second part only when the first has no match. */
  lemma {:induction false} FirstMatchAppend(subgrid: string, ps: seq<Pos>, es: seq<Pos>)
    ensures FirstMatch(subgrid, ps + es) ==
      if FirstMatch(subgrid, ps).Some? then FirstMatch(subgrid, ps) else FirstMatch(subgrid, es)
  {
    if ps == [] {
      assert ps + es == es;
    } else {
      assert (ps + es)[0] == ps[0];
      assert (ps + es)[1..] == ps[1..] + es;
      FirstMatchAppend(subgrid, ps[1..], es);
    }
  }

  /** The inner loop's index is where the search of one root ends. */
  lemma RootSearched(subgrid: string, d: Dir, j: nat)
    requires j <= |d.files|
    requires j < |d.files| ==> Qualifies(subgrid, d.files[j])
    requires forall k :: 0 <= k < j ==> !Qualifies(subgrid, d.files[k])
    ensures FirstMatch(subgrid, Entries(d)) == if j < |d.files| then Some(Join(d.root, d.files[j])) else None
  {
    var es := Entries(d);
    if j < |d.files| {
      FirstMatchAt(subgrid, es, j);
    } else {
      assert forall k :: 0 <= k < |es| ==> !Qualifies(subgrid, es[k].name);
    }
  }

  /** After the i-th root, the walk so far has a match exactly when that root had one. */
  lemma RootVisited(subgrid: string, walk: seq<Dir>, i: nat, j: nat)
    requires i < |walk| && j <= |walk[i].files|
    requires FirstMatch(subgrid, Flatten(walk[..i])).None?
    requires j < |walk[i].files| ==> Qualifies(subgrid, walk[i].files[j])
    requires forall k :: 0 <= k < j ==> !Qualifies(subgrid, walk[i].files[k])
    ensures FirstMatch(subgrid, Flatten(walk[..i + 1])) ==
      if j < |walk[i].files| then Some(Join(walk[i].root, walk[i].files[j])) else None
  {
    FlattenStep(walk, i);
    FirstMatchAppend(subgrid, Flatten(walk[..i]), Entries(walk[i]));
    RootSearched(subgrid, walk[i], j);
  }

  /** A match among the first roots is the match of the whole walk. */
  lemma FoundIsFirst(subgrid: string, walk: seq<Dir>, i: nat)
    requires i <= |walk|
    requires FirstMatch(subgrid, Flatten(walk[..i])).Some?
    ensures FirstMatch(subgrid, Flatten(walk)) == FirstMatch(subgrid, Flatten(walk[..i]))
  {
    var ps, all := Flatten(walk[..i]), Flatten(walk);
    PrefixOfFlatten(walk, i);
    PrefixAndRest(ps, all);
    FirstMatchAppend(subgrid, ps, all[|ps|..]);
  }

  lemma PrefixAndRest(ps: seq<Pos>, all: seq<Pos>)
    requires ps <= all
    ensures all == ps + all[|ps|..]
  {
  }

  /** Walking a prefix of the roots visits a prefix of the files. */
  lemma {:induction false} PrefixOfFlatten(walk: seq<Dir>, i: nat)
    requires i <= |walk|
    ensures Flatten(walk[..i]) <= Flatten(walk)
  {
    if i == |walk| {
      assert walk[..i] == walk;
    } else {
      var front := walk[..|walk| - 1];
      PrefixOfFlatten(front, i);
      assert front[..i] == walk[..i];
    }
  }

  /** The exact-prefix alternative adds nothing: a file qualifies exactly when its
      dashed prefix equals the dashed subgrid name. */
  lemma ExactAlternativeSubsumed(subgrid: string, f: string)
    ensures Qualifies(subgrid, f) <==> IsGeojson(f) && Dashed(Take(f, |subgrid|)) == Dashed(subgrid)
  {
  }

  /** A matching file name is at least as long as the subgrid name. */
  lemma MatchIsLongEnough(subgrid: string, f: string)
    requires NameMatches(subgrid, f)
    ensures |f| >= |subgrid|
  {
    var prefix := Take(f, |subgrid|);
    assert |Dashed(prefix)| == |prefix|;
  }

  /** '_' and '-' are interchangeable in either string, position by position. */
  lemma SeparatorTolerant(a: string, b: string)
    requires |a| == |b|
    requires forall i :: 0 <= i < |a| ==>
      a[i] == b[i] || ((a[i] == '_' || a[i] == '-') && (b[i] == '_' || b[i] == '-'))
    ensures Dashed(a) == Dashed(b)
  {
  }

  /** Any other difference in the compared prefix, case included, defeats the match. */
  lemma CaseSensitive(subgrid: string, f: string, i: nat)
    requires i < |subgrid| && i < |f|
    requires f[i] != subgrid[i] && f[i] != '_' && f[i] != '-'
    ensures !NameMatches(subgrid, f)
  {
    var prefix := Take(f, |subgrid|);
    assert prefix[i] == f[i];
    assert Dashed(prefix)[i] == f[i];
  }

  /** The extension test ignores case: "AU-12-C.GeoJSON" is found for "AU_12_C". */
  lemma ExtensionIgnoresCase()
    ensures Qualifies("AU_12_C", "AU-12-C.GeoJSON")
  {
    var f := "AU-12-C.GeoJSON";
    assert Lower(f)[7..] == ".geojson";
    assert Dashed(Take(f, 7)) == "AU-12-C";
    assert Dashed("AU_12_C") == "AU-12-C";
  }

  /** A lower-case file name is not found for an upper-case subgrid name. */
  lemma LowerCaseNameNotFound()
    ensures !Qualifies("AU_12_C", "au_12_c_x.geojson")
  {
    CaseSensitive("AU_12_C", "au_12_c_x.geojson", 0);
  }

  /** A name without the extension is never returned, whatever its prefix. */
  lemma OnlyGeojsonFound(subgrid: string, ps: seq<Pos>)
    ensures FirstMatch(subgrid, ps).Some? ==>
      exists i :: 0 <= i < |ps| && IsGeojson(ps[i].name) && FirstMatch(subgrid, ps).value == ps[i].Path()
  {
  }
}
