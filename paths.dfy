/** Strings and Windows path names, as the scripts use them.
    Python's str.lower/str.upper are modelled on ASCII letters; os.path is ntpath
    (the scripts run on Windows drives such as C: and Z:). */
module Paths {

  datatype Option<+T> = None | Some(value: T)

  /** The separator os.path.join inserts, and the two characters ntpath splits on. */
  const Sep: char := '\\'

  predicate IsSep(c: char) {
    c == '\\' || c == '/'
  }

  function LowerChar(c: char): char {
    if 'A' <= c <= 'Z' then (c as int + 32) as char else c
  }

  function UpperChar(c: char): char {
    if 'a' <= c <= 'z' then (c as int - 32) as char else c
  }

  /** str.lower(), on ASCII letters. */
  function Lower(s: string): (r: string)
    ensures |r| == |s|
    ensures forall i :: 0 <= i < |s| ==> r[i] == LowerChar(s[i])
  {
    seq(|s|, i requires 0 <= i < |s| => LowerChar(s[i]))
  }

  /** str.upper(), on ASCII letters. */
  function Upper(s: string): (r: string)
    ensures |r| == |s|
    ensures forall i :: 0 <= i < |s| ==> r[i] == UpperChar(s[i])
  {
    seq(|s|, i requires 0 <= i < |s| => UpperChar(s[i]))
  }

  /** str.replace(a, b) for one-character a and b. */
  function Replace(s: string, a: char, b: char): (r: string)
    ensures |r| == |s|
    ensures forall i :: 0 <= i < |s| ==> r[i] == if s[i] == a then b else s[i]
  {
    seq(|s|, i requires 0 <= i < |s| => if s[i] == a then b else s[i])
  }

  predicate StartsWith(s: string, prefix: string) {
    |prefix| <= |s| && s[..|prefix|] == prefix
  }

  predicate EndsWith(s: string, suffix: string) {
    |suffix| <= |s| && s[|s| - |suffix|..] == suffix
  }

  /** The `in` operator on two strings. */
  predicate Contains(s: string, part: string) {
    exists i :: 0 <= i <= |s| - |part| && OccursAt(s, part, i)
  }

  predicate OccursAt(s: string, part: string, i: int)
    requires 0 <= i <= |s| - |part|
  {
    s[i..i + |part|] == part
  }

  /** The slice s[:n] for n >= 0: at most n leading characters. */
  function Take(s: string, n: nat): (r: string)
    ensures |r| == if n <= |s| then n else |s|
    ensures StartsWith(s, r)
  {
    if n <= |s| then s[..n] else s
  }

  /** A single path component as os.walk and os.listdir report it:
      no separator and no drive colon. */
  predicate IsFileName(name: string) {
    forall i :: 0 <= i < |name| ==> !IsSep(name[i]) && name[i] != ':'
  }

  /** A bare drive such as "C:". */
  predicate IsDrive(p: string) {
    |p| == 2 && !IsSep(p[0]) && p[1] == ':'
  }

  /** ntpath.join(dir, name) for a relative second argument: a separator is added
      unless dir is empty, already ends in one, or is a bare drive. */
  function Join(dir: string, name: string): string {
    if dir == [] then name
    else if IsSep(dir[|dir| - 1]) || IsDrive(dir) then dir + name
    else dir + [Sep] + name
  }

  /** Index of the last separator in p, or -1 when there is none. */
  function LastSep(p: string): (k: int)
    ensures -1 <= k < |p|
    ensures 0 <= k ==> IsSep(p[k])
    ensures forall j :: k < j < |p| ==> !IsSep(p[j])
  {
    if p == [] then -1
    else if IsSep(p[|p| - 1]) then |p| - 1
    else LastSep(p[..|p| - 1])
  }

  /** ntpath.basename: what follows the last separator, after the drive. */
  function Basename(p: string): string {
    var k := LastSep(p);
    if 0 <= k then p[k + 1..]
    else if |p| >= 2 && p[1] == ':' then p[2..]
    else p
  }

  /** Appending characters that are not separators leaves the last separator where it was. */
  lemma {:induction false} LastSepAppend(p: string, tail: string)
    requires forall i :: 0 <= i < |tail| ==> !IsSep(tail[i])
    ensures LastSep(p + tail) == LastSep(p)
  {
    if tail != [] {
      var front := tail[..|tail| - 1];
      assert (p + tail)[..|p + tail| - 1] == p + front;
      LastSepAppend(p, front);
    } else {
      assert p + tail == p;
    }
  }

  /** A file name has no separator, so it has no last one. */
  lemma NoSepInFileName(name: string)
    requires IsFileName(name)
    ensures LastSep(name) == -1
  {
    assert name == [] + name;
    LastSepAppend([], name);
  }

  /** After a trailing separator, basename gives back exactly what was appended. */
  lemma BasenameAfterSep(q: string, name: string)
    requires q != [] && IsSep(q[|q| - 1])
    requires IsFileName(name)
    ensures Basename(q + name) == name
  {
    LastSepAppend(q, name);
    assert (q + name)[|q|..] == name;
  }

  /** The name a directory entry is joined under is what basename gives back. */
  lemma BasenameOfJoin(dir: string, name: string)
    requires IsFileName(name)
    ensures Basename(Join(dir, name)) == name
  {
    if dir == [] {
      NoSepInFileName(name);
    } else if IsSep(dir[|dir| - 1]) {
      BasenameAfterSep(dir, name);
    } else if IsDrive(dir) {
      LastSepAppend(dir, name);
      assert (dir + name)[2..] == name;
    } else {
      BasenameAfterSep(dir + [Sep], name);
      assert Join(dir, name) == (dir + [Sep]) + name;
    }
  }
}
