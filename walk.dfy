/** A directory walk as os.walk reports it: one entry per visited directory,
    with the files directly inside it, in the order the walk yields them. */
module Walk {
  import opened Paths

  /** One (root, dirs, files) triple of os.walk; the sub-directory names are not used. */
  datatype Dir = Dir(root: string, files: seq<string>)

  /** One file as the nested loops meet it: the directory it was found in and its name. */
  datatype Pos = Pos(root: string, name: string) {
    /** os.path.join(root, f) */
    function Path(): string {
      Join(root, name)
    }
  }

  function Entries(d: Dir): (ps: seq<Pos>)
    ensures |ps| == |d.files|
    ensures forall j :: 0 <= j < |ps| ==> ps[j] == Pos(d.root, d.files[j])
  {
    seq(|d.files|, j requires 0 <= j < |d.files| => Pos(d.root, d.files[j]))
  }

  /** Every file of the walk in visiting order: roots in order, files in order within a root. */
  function Flatten(walk: seq<Dir>): seq<Pos> {
    if walk == [] then [] else Flatten(walk[..|walk| - 1]) + Entries(walk[|walk| - 1])
  }

  /** Visiting one more root appends its files. */
  lemma FlattenStep(walk: seq<Dir>, i: nat)
    requires i < |walk|
    ensures Flatten(walk[..i + 1]) == Flatten(walk[..i]) + Entries(walk[i])
  {
    assert walk[..i + 1][..i] == walk[..i];
  }
}
