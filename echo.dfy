/** The middleware adapter's own copy of the source-path truncation
    (`srcFileParse`, adapter/echo.go). */
module Echo {
  import Paths
  import Logging

  /** `srcFileParse`: the same split, segment filter and join as the logger's
      `Src.TruncateFile`. */
  function SrcFileParse(filename: string): (r: string)
    ensures r == Paths.Truncate(filename)
  {
    var (dir, file) := Paths.Split(filename);
    var parts := Paths.Fields(dir);
    if |parts| > 0 then Paths.Join(parts[|parts| - 1], file) else file
  }

  /** The adapter and the logger truncate every path alike. */
  lemma SrcFileParseAgrees(filename: string, line: int)
    ensures SrcFileParse(filename) == Logging.Src(filename, line).TruncateFile().file
  {
  }

  /** The documented example "project/src/model/user.go" => "model/user.go",
      with the path given by its parts. */
  lemma SrcFileParseExampleNested(pre: string, seg: string, file: string)
    requires pre == "project/src/" && seg == "model" && file == "user.go"
    ensures SrcFileParse(pre + seg + "/" + file) == seg + "/" + file
  {
    Paths.TruncateLastSegment(pre + seg + "/" + file, pre, seg, "/", file);
  }

  /** A bare file name and the empty path are returned as they are. */
  lemma SrcFileParseExampleBare(path: string)
    requires path == "main.go" || path == ""
    ensures SrcFileParse(path) == path
  {
    Paths.TruncateNoSegment(path, "", path);
  }
}
