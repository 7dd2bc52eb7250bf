/** The write guard (check_local_path): no output path may lie on the read-only
    archive drive Z:. */
module Utils {
  import opened Paths

  /** The outcome of the guard: the path handed back, or the PermissionError it raises. */
  datatype Checked = Allowed(path: string) | PermissionError(message: string)

  const ZDriveMessage: string := "Writing to Z: drive is not allowed. Use a local drive instead."

  /** The drive the archives live on, as the guard spells it after upper-casing. */
  const ArchiveDrive: string := "Z:"

  /** check_local_path: the path comes back unchanged unless its upper-cased form starts
      with "Z:"; the raise is decided by the first two characters alone. */
  function CheckLocalPath(path: string): (r: Checked)
    ensures r.Allowed? ==> r.path == path
    ensures r.PermissionError? <==> |path| >= 2 && (path[0] == 'z' || path[0] == 'Z') && path[1] == ':'
    ensures r.PermissionError? ==> r.message == ZDriveMessage
  {
    if StartsWith(Upper(path), ArchiveDrive) then PermissionError(ZDriveMessage) else Allowed(path)
  }

  /** Paths that agree on their first two characters get the same verdict. */
  lemma {:induction false} GuardReadsTwoCharacters(p: string, q: string)
    requires |p| >= 2 && |q| >= 2 && p[..2] == q[..2]
    ensures CheckLocalPath(p).PermissionError? <==> CheckLocalPath(q).PermissionError?
  {
    assert p[0] == p[..2][0] && p[1] == p[..2][1];
    assert q[0] == q[..2][0] && q[1] == q[..2][1];
  }

  /** Applying the guard to what it let through changes nothing. */
  lemma GuardIdempotent(path: string)
    requires CheckLocalPath(path).Allowed?
    ensures CheckLocalPath(CheckLocalPath(path).path) == CheckLocalPath(path)
  {
  }

  /** Paths shorter than two characters always pass. */
  lemma ShortPathsPass(path: string)
    requires |path| < 2
    ensures CheckLocalPath(path) == Allowed(path)
  {
  }

  /** "Z:" further into a path is no reason to refuse it. */
  lemma ZLaterIsAllowed(prefix: string, rest: string)
    requires |prefix| >= 2 && prefix[1] != ':'
    ensures CheckLocalPath(prefix + "Z:" + rest).Allowed?
  {
    assert (prefix + "Z:" + rest)[1] == prefix[1];
  }

  /** Everything inside a directory gets the verdict of the directory's drive: when
      one file under dir passes the guard, any other does. */
  lemma GuardFollowsDirectory(dir: string, a: string, b: string)
    requires |dir| >= 2
    ensures CheckLocalPath(Join(dir, a)).PermissionError? <==> CheckLocalPath(Join(dir, b)).PermissionError?
  {
    assert Join(dir, a)[..2] == dir[..2];
    assert Join(dir, b)[..2] == dir[..2];
    GuardReadsTwoCharacters(Join(dir, a), Join(dir, b));
  }
}
