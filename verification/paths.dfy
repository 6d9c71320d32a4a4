/**
 * The parts of Python's `pathlib.PurePosixPath` and `os.path.join` that the
 * upload loop relies on: the final component of a path (`Path.name`), its
 * extension (`Path.suffix`), and joining an output directory with a file name.
 */
module Paths {

  /** The index of the last `c` in `s`, or -1 (Python's `str.rfind`). */
  function LastIndexOf(s: string, c: char): (k: int)
    ensures -1 <= k < |s|
    ensures k >= 0 ==> s[k] == c
    ensures forall j :: k < j < |s| ==> s[j] != c
  {
    if s == [] then -1
    else if s[|s| - 1] == c then |s| - 1
    else LastIndexOf(s[..|s| - 1], c)
  }

  lemma LastIndexAt(s: string, c: char, k: nat)
    requires k < |s| && s[k] == c
    requires forall j :: k < j < |s| ==> s[j] != c
    ensures LastIndexOf(s, c) == k
  {
  }

  /** A path component that `Path.name` can return for a non-empty path. */
  predicate IsComponent(n: string) {
    n != "" && n != "." && '/' !in n
  }

  /**
   * `Path(path).name`: the path is split at '/', empty and "." components are
   * dropped, and the last remaining component is the name ("" if none remains).
   */
  function Name(path: string): (name: string)
    ensures name == "" || IsComponent(name)
    decreases |path|
  {
    if path == [] then ""
    else
      var k := LastIndexOf(path, '/');
      var last := AfterLastSlash(path);
      if last != "" && last != "." then last
      else Name(if k < 0 then "" else path[..k])
  }

  /** The text after the last '/' of `path` (all of it when there is none). */
  function AfterLastSlash(path: string): (last: string)
    ensures '/' !in last
    ensures last == path[LastIndexOf(path, '/') + 1..]
  {
    var k := LastIndexOf(path, '/');
    var last := path[k + 1..];
    forall j | 0 <= j < |last|
      ensures last[j] != '/'
    {
      assert last[j] == path[k + 1 + j];
    }
    last
  }

  /** `path.split('/')`: the pieces between the slashes, empty ones included. */
  function Segments(path: string): (segs: seq<string>)
    ensures |segs| >= 1
    decreases |path|
  {
    var k := LastIndexOf(path, '/');
    if k < 0 then [path] else Segments(path[..k]) + [path[k + 1..]]
  }

  /** The segments that are components: without the empty ones and ".". */
  function KeepComponents(segs: seq<string>): (kept: seq<string>)
    ensures forall i :: 0 <= i < |kept| ==> IsComponent(kept[i])
  {
    if segs == [] then []
    else
      var last := segs[|segs| - 1];
      KeepComponents(segs[..|segs| - 1]) + (if IsComponent(last) then [last] else [])
  }

  /** The components `pathlib` keeps of a POSIX path, in order. */
  function Components(path: string): seq<string> {
    KeepComponents(Segments(path))
  }

  /** The name is the last component, or "" when the path has none. */
  lemma {:induction false} NameIsLastComponent(path: string)
    ensures var cs := Components(path);
      Name(path) == if cs == [] then "" else cs[|cs| - 1]
    decreases |path|
  {
    var k := LastIndexOf(path, '/');
    if k < 0 {
      NameNoSlash(path);
    } else {
      var last := AfterLastSlash(path);
      SegmentsSlash(path, k);
      KeepComponentsSnoc(Segments(path[..k]), last);
      if !IsComponent(last) {
        assert Name(path) == Name(path[..k]);
        NameIsLastComponent(path[..k]);
      }
    }
  }

  lemma NameNoSlash(path: string)
    requires LastIndexOf(path, '/') < 0
    ensures Components(path) == (if IsComponent(path) then [path] else [])
    ensures Name(path) == (if IsComponent(path) then path else "")
  {
    SegmentsNoSlash(path);
    assert [path][..0] == [];
    if path != [] {
      assert '/' !in path;
      assert Name(path) == if path != "" && path != "." then path else Name("");
    }
  }

  lemma SegmentsNoSlash(path: string)
    requires LastIndexOf(path, '/') < 0
    ensures Segments(path) == [path]
    ensures AfterLastSlash(path) == path
  {
    assert path[0..] == path;
  }

  lemma SegmentsSlash(path: string, k: nat)
    requires k == LastIndexOf(path, '/')
    ensures Segments(path) == Segments(path[..k]) + [AfterLastSlash(path)]
  {
  }

  lemma KeepComponentsSnoc(segs: seq<string>, x: string)
    ensures KeepComponents(segs + [x]) == KeepComponents(segs) + (if IsComponent(x) then [x] else [])
  {
    assert (segs + [x])[..|segs|] == segs;
  }

  /** A component placed after a directory prefix ending in '/' is the name of the result. */
  lemma NameAfterSlash(dir: string, n: string)
    requires IsComponent(n)
    requires dir == "" || dir[|dir| - 1] == '/'
    ensures Name(dir + n) == n
  {
    var p := dir + n;
    assert forall j :: |dir| <= j < |p| ==> p[j] == n[j - |dir|];
    if dir != "" {
      LastIndexAt(p, '/', |dir| - 1);
    }
    assert p[LastIndexOf(p, '/') + 1..] == n;
  }

  /**
   * `Path.suffix`: from the last '.' of the name to its end, provided that dot
   * is neither the first nor the last character; otherwise "".
   */
  function Suffix(name: string): (s: string)
    ensures s == "" || (|s| >= 2 && |s| < |name| && s[0] == '.' && '.' !in s[1..] && name[|name| - |s|..] == s)
    ensures s == "" ==> forall j :: 0 < j < |name| - 1 && name[j] == '.' ==> '.' in name[j + 1..]
  {
    var i := LastIndexOf(name, '.');
    if 0 < i < |name| - 1 then name[i..]
    else
      forall j | 0 < j < |name| - 1 && name[j] == '.'
        ensures '.' in name[j + 1..]
      {
        assert name[j + 1..][i - j - 1] == name[i];
      }
      ""
  }

  /** The CSV test of the upload loop: the suffix is exactly ".csv", letter case included. */
  predicate IsCsv(name: string) {
    Suffix(name) == ".csv"
  }

  /** A name passes the CSV test exactly when something precedes a final ".csv". */
  lemma IsCsvExactly(name: string)
    ensures IsCsv(name) <==> |name| > 4 && name[|name| - 4..] == ".csv"
  {
    if |name| > 4 && name[|name| - 4..] == ".csv" {
      var k := |name| - 4;
      assert name[k] == '.' && name[k + 1] == 'c' && name[k + 2] == 's' && name[k + 3] == 'v';
      LastIndexAt(name, '.', k);
    }
  }

  /** The cases the CSV test is meant to tell apart. */
  lemma IsCsvExamples()
    ensures IsCsv("a.csv") && IsCsv("batch.2.csv")
    ensures !IsCsv("a.CSV") && !IsCsv(".csv") && !IsCsv("report.txt") && !IsCsv("a.csv.bak")
  {
    assert IsCsv("a.csv") by { IsCsvExactly("a.csv"); }
    assert IsCsv("batch.2.csv") by { IsCsvExactly("batch.2.csv"); }
    assert !IsCsv("a.CSV") by { IsCsvExactly("a.CSV"); }
    assert !IsCsv(".csv") by { IsCsvExactly(".csv"); }
    assert !IsCsv("report.txt") by { IsCsvExactly("report.txt"); }
    assert !IsCsv("a.csv.bak") by { IsCsvExactly("a.csv.bak"); }
  }

  /** A file that passes the CSV test has a name that is a proper path component. */
  lemma CsvNameIsComponent(path: string)
    requires IsCsv(Name(path))
    ensures IsComponent(Name(path))
  {
  }

  /** `os.path.join(dir, file)` for two arguments on POSIX. */
  function JoinPath(dir: string, file: string): (p: string)
    ensures |file| > 0 && file[0] == '/' ==> p == file
    ensures !(|file| > 0 && file[0] == '/') ==>
      && |dir| + |file| <= |p| <= |dir| + |file| + 1
      && p[..|dir|] == dir && p[|p| - |file|..] == file
      && (|p| > |dir| + |file| <==> dir != "" && dir[|dir| - 1] != '/')
      && (|p| > |dir| + |file| ==> p[|dir|] == '/')
  {
    if |file| > 0 && file[0] == '/' then file
    else if dir == "" || dir[|dir| - 1] == '/' then dir + file
    else dir + "/" + file
  }

  /** Joining a directory with a file name keeps that file name. */
  lemma {:induction false} NameOfJoin(dir: string, n: string)
    requires IsComponent(n)
    ensures Name(JoinPath(dir, n)) == n
  {
    if dir == "" || dir[|dir| - 1] == '/' {
      NameAfterSlash(dir, n);
    } else {
      assert JoinPath(dir, n) == (dir + "/") + n;
      NameAfterSlash(dir + "/", n);
    }
  }
}
