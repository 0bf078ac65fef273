/** Source-path truncation shared by the logger (`Src.TruncateFile`, logger.go)
    and the middleware adapter (`srcFileParse`, adapter/echo.go): split off the
    file name, break the directory into its non-empty segments, and keep the
    last segment joined to the file name, or the bare file name when the
    directory has no segment. The separator is fixed to '/'. */
module Paths {

  const Separator: char := '/'

  /** Every character of `s` is a separator (vacuously so for ""). */
  predicate AllSeparators(s: string) {
    forall i :: 0 <= i < |s| ==> s[i] == Separator
  }

  /** A string that is empty or whose last character is a separator. */
  predicate EndsAtSeparator(s: string) {
    s == [] || s[|s| - 1] == Separator
  }

  /** A path segment that `filepath.Clean` leaves alone. */
  predicate IsOrdinary(name: string) {
    name != "" && name != "." && name != ".."
  }

  /** Index of the last separator of `p`, or -1 when there is none. */
  function LastSeparator(p: string): (i: int)
    ensures -1 <= i < |p|
    ensures i >= 0 ==> p[i] == Separator
    ensures forall j :: i < j < |p| ==> p[j] != Separator
  {
    if p == [] then -1
    else if p[|p| - 1] == Separator then |p| - 1
    else LastSeparator(p[..|p| - 1])
  }

  /** `filepath.Split`: the directory up to and including the final separator,
      and the file name after it. */
  function Split(p: string): (parts: (string, string))
    ensures parts.0 + parts.1 == p
    ensures EndsAtSeparator(parts.0)
    ensures Separator !in parts.1
  {
    var i := LastSeparator(p);
    SplitAt(p, i);
    (p[..i + 1], p[i + 1..])
  }

  /** Cutting `p` just after its last separator `i` gives the two parts. */
  lemma SplitAt(p: string, i: int)
    requires -1 <= i < |p|
    requires i >= 0 ==> p[i] == Separator
    requires forall j :: i < j < |p| ==> p[j] != Separator
    ensures p[..i + 1] + p[i + 1..] == p
    ensures EndsAtSeparator(p[..i + 1])
    ensures Separator !in p[i + 1..]
  {
  }

  /** Splitting at the final separator is the only split with these properties. */
  lemma SplitUnique(dir: string, file: string)
    requires EndsAtSeparator(dir)
    requires Separator !in file
    ensures Split(dir + file) == (dir, file)
  {
    var p := dir + file;
    var i := LastSeparator(p);
    forall j | |dir| <= j < |p| ensures p[j] != Separator {
      assert p[j] == file[j - |dir|];
    }
    assert dir != [] ==> p[|dir| - 1] == Separator;
    assert i + 1 == |dir|;
    assert p[..i + 1] == dir;
  }

  /** Length of the leading run of non-separator characters of `s`. */
  function RunLength(s: string): (n: nat)
    requires s != [] && s[0] != Separator
    ensures 1 <= n <= |s|
    ensures forall j :: 0 <= j < n ==> s[j] != Separator
    ensures n == |s| || s[n] == Separator
  {
    if |s| == 1 || s[1] == Separator then 1 else 1 + RunLength(s[1..])
  }

  /** `strings.FieldsFunc(s, isSeparator)`: the maximal runs of non-separator
      characters of `s`, in order; empty segments never appear. */
  function Fields(s: string): (parts: seq<string>)
    ensures forall i :: 0 <= i < |parts| ==> parts[i] != "" && Separator !in parts[i]
    ensures EndsAtSeparator(s) ==> forall i :: 0 <= i < |parts| ==> |parts[i]| < |s|
    decreases |s|
  {
    if s == [] then []
    else if s[0] == Separator then Fields(s[1..])
    else
      var n := RunLength(s);
      assert s[|s| - 1] == Separator ==> n < |s|;
      [s[..n]] + Fields(s[n..])
  }

  /** `filepath.Join(dir, file)` for a non-empty segment and a file name, both
      free of separators, including the rewriting `filepath.Clean` applies to
      "." and ".." and the dropping of an empty file name. */
  function Join(dir: string, file: string): (r: string)
    requires dir != "" && Separator !in dir && Separator !in file
    ensures |r| <= |dir| + 1 + |file|
    ensures IsOrdinary(file) && dir != "." ==> r == dir + [Separator] + file
  {
    if file == "" || file == "." then dir
    else if file == ".." then (if dir == ".." then "../.." else if dir == "." then ".." else ".")
    else if dir == "." then file
    else dir + [Separator] + file
  }

  /** The truncation both entry points perform. */
  function Truncate(path: string): (r: string)
    ensures Separator !in path ==> r == path
    ensures |r| <= |path|
  {
    var (dir, file) := Split(path);
    var parts := Fields(dir);
    if |parts| > 0 then Join(parts[|parts| - 1], file) else file
  }

  /** A string made only of separators has no fields. */
  lemma {:induction false} FieldsOfSeparators(s: string)
    requires AllSeparators(s)
    ensures Fields(s) == []
    decreases |s|
  {
    if s != [] {
      FieldsOfSeparators(s[1..]);
    }
  }

  /** After a prefix that ends at a separator, fields start afresh. */
  lemma {:induction false} FieldsAppend(a: string, b: string)
    requires EndsAtSeparator(a)
    ensures Fields(a + b) == Fields(a) + Fields(b)
    decreases |a|
  {
    if a == [] {
      assert a + b == b;
    } else if a[0] == Separator {
      assert (a + b)[1..] == a[1..] + b;
      FieldsAppend(a[1..], b);
    } else {
      var n := RunLength(a);
      assert n < |a|;
      assert RunLength(a + b) == n by {
        assert forall j | 0 <= j < n :: (a + b)[j] == a[j];
        assert (a + b)[n] == a[n] == Separator;
      }
      assert (a + b)[..n] == a[..n];
      assert (a + b)[n..] == a[n..] + b;
      FieldsAppend(a[n..], b);
    }
  }

  /** A segment followed only by separators is a single field. */
  lemma FieldsOfSegment(seg: string, tail: string)
    requires seg != [] && Separator !in seg
    requires AllSeparators(tail)
    ensures Fields(seg + tail) == [seg]
  {
    var s := seg + tail;
    var n := RunLength(s);
    assert forall j | 0 <= j < |seg| :: s[j] == seg[j];
    assert tail != [] ==> s[|seg|] == tail[0] == Separator;
    assert n == |seg|;
    assert s[..n] == seg;
    assert s[n..] == tail;
    FieldsOfSeparators(tail);
  }

  /** When the directory part ends in the segment `seg` (followed by one or more
      separators and the file name), the result is `seg` joined to the file name. */
  lemma TruncateLastSegment(path: string, pre: string, seg: string, tail: string, file: string)
    requires path == pre + seg + tail + file
    requires EndsAtSeparator(pre)
    requires seg != "" && Separator !in seg
    requires tail != "" && AllSeparators(tail)
    requires Separator !in file
    ensures Truncate(path) == Join(seg, file)
  {
    var dir := pre + seg + tail;
    assert path == dir + file;
    SplitUnique(dir, file);
    assert dir == pre + (seg + tail);
    FieldsAppend(pre, seg + tail);
    FieldsOfSegment(seg, tail);
  }

  /** When the directory part has no segment at all, the result is the bare file name. */
  lemma TruncateNoSegment(path: string, dir: string, file: string)
    requires path == dir + file
    requires AllSeparators(dir)
    requires Separator !in file
    ensures Truncate(path) == file
  {
    assert EndsAtSeparator(dir);
    SplitUnique(dir, file);
    FieldsOfSeparators(dir);
  }

  /** For an ordinary file name whose directory segments are all ordinary, the
      result holds at most one separator and ends with the file name. */
  lemma TruncateShape(path: string)
    requires IsOrdinary(Split(path).1)
    requires forall seg :: seg in Fields(Split(path).0) ==> seg != "."
    ensures var r := Truncate(path); var file := Split(path).1;
      |file| <= |r| && r[|r| - |file|..] == file &&
      forall i, j :: 0 <= i < j < |r| && r[i] == Separator ==> r[j] != Separator
  {
    var (dir, file) := Split(path);
    var parts := Fields(dir);
    var r := Truncate(path);
    if |parts| > 0 {
      var seg := parts[|parts| - 1];
      assert seg in parts;
      assert r == seg + [Separator] + file;
      forall k | 0 <= k < |r| && k != |seg| ensures r[k] != Separator {
        if k < |seg| {
          assert r[k] == seg[k];
        } else {
          assert r[k] == file[k - |seg| - 1];
        }
      }
      assert r[|r| - |file|..] == file;
    } else {
      assert r == file;
      forall i | 0 <= i < |r| ensures r[i] != Separator {
        assert r[i] in file;
      }
    }
  }

  /** The documented example "project/Src/model/user.go" => "model/user.go",
      with the path given by its parts. */
  lemma TruncateExampleNested(pre: string, seg: string, file: string)
    requires pre == "project/Src/" && seg == "model" && file == "user.go"
    ensures Truncate(pre + seg + "/" + file) == seg + "/" + file
  {
    TruncateLastSegment(pre + seg + "/" + file, pre, seg, "/", file);
  }

  /** A bare file name is kept as it is: "main.go" => "main.go", "" => "". */
  lemma TruncateExampleBare()
    ensures Truncate("main.go") == "main.go"
    ensures Truncate("") == ""
  {
    TruncateNoSegment("main.go", "", "main.go");
    TruncateNoSegment("", "", "");
  }

  /** A directory with no segment leaves the bare file name: "/x.go" => "x.go". */
  lemma TruncateExampleRoot(dir: string, file: string)
    requires dir == "/" && file == "x.go"
    ensures Truncate(dir + file) == file
  {
    TruncateNoSegment(dir + file, dir, file);
  }

  /** Leading and repeated separators are ignored: "//a//b.go" => "a/b.go". */
  lemma TruncateExampleRepeatedSeparators(pre: string, seg: string, tail: string, file: string)
    requires pre == "//" && seg == "a" && tail == "//" && file == "b.go"
    ensures Truncate(pre + seg + tail + file) == seg + "/" + file
  {
    TruncateLastSegment(pre + seg + tail + file, pre, seg, tail, file);
  }
}
