# crit/log — a Dafny model of the logger core

This project models the core of a small Go structured-logging library:

- **Levels** (`levels.dfy`, levels.go): the eight severities `debug` … `emergency` with values 0..7. `Level.String` looks a level up in the label table. `ToLevel` lower-cases its input and looks it up in the value table. A miss gives the default, `notice`.
- **Paths** (`paths.dfy`): the source-path truncation used by `Src.TruncateFile` (logger.go) and by the adapter's `srcFileParse` (adapter/echo.go). It models `filepath.Split`, `strings.FieldsFunc` on the separator, and `filepath.Join` of two separator-free parts, including the rewriting that `filepath.Clean` applies to `.` and `..` and the dropping of an empty file name.
- **Fields** (`fields.dfy`, logger.go): field values, `Data`, and the rule `With` uses to merge incoming data. A new key takes the incoming value. A key that holds a slice gets the value appended. A key that holds anything else becomes `[old, new]`. `MergeAll` is the merge of all of `With`'s arguments in argument order. `MergeAllAccumulates` proves it equal to a closed form that gathers each key's values in order.
- **Logging** (`logger.dfy`, logger.go): a `Logger` class with its field buffer `data`, and a `Sink` class that records every record written to it.
  - `With` copies the buffer and merges each argument into the copy with loops. The result is a new logger. The receiver is unchanged.
  - `Output` is the gate. Below the threshold it drops the buffer and writes nothing. Otherwise it writes exactly one `WriteLog` holding the app name, the level label, the message, the pending fields and the truncated caller location, and then empties the buffer.
  - Each severity method calls `Output` with its own level constant. `Fatal` uses the emergency level and returns exit status 1.
  - `FieldLifecycle` is a client that uses only these contracts. It shows that fields are consumed once, that a derived logger leaves the original alone, that chained `With` calls accumulate, and that a gated call still clears the buffer.
- **Echo** (`echo.dfy`, adapter/echo.go): `srcFileParse`, written as the adapter writes it, and proved equal to the logger's truncation on every input.

Inputs from outside the program are parameters. The emission time is an integer `now`. The result of `runtime.Caller` is a `Frame(ok, file, line)`. The sink is a `Sink` object passed to `New`.

Two behaviours of the Go code that the model keeps:
- For a value outside 0..7, `Level.String` returns the empty string: a missing key of the label table reads as the map's zero value (levels.go:42-44).
- `With` never touches the receiver's buffer. Whichever logger it is called on, it returns a fresh logger that holds a merged copy (logger.go:96-130).

## Model

| member | source | states |
|---|---|---|
| `Levels.LevelsOrdered` | levels.go:7-16 | the levels are Debug < Info < … < Emergency, with values 0 to 7 |
| `Levels.Level.String` | levels.go:42-44 | a named level has a non-empty lower-case label; any other value gives "" |
| `Levels.LowerChar` | levels.go:47 | an ASCII upper-case letter becomes its lower-case letter; every other character is kept; the meaning of `ToLower` on each character |
| `Levels.ToLower` | levels.go:47 | same length as the input; each character is its ASCII lower-case form; the result has no upper-case letter |
| `Levels.ToLevel` | levels.go:46-55 | the result is always one of the eight named levels |
| `Levels.LabelRoundTrip` | levels.go:20-40 | the value table maps each level's label back to that level |
| `Levels.ToLevelOfString` | levels.go:20-55 | `ToLevel(l.String()) == l` for each of the eight levels |
| `Levels.StringInjective` | levels.go:20-29 | the labels are pairwise distinct, so `String` is injective on the named levels |
| `Levels.ToLowerOfLower` | levels.go:47 | lower-casing a string with no upper-case letter leaves it unchanged |
| `Levels.ToLowerIdempotent` | levels.go:47 | lower-casing twice is the same as lower-casing once |
| `Levels.ToLevelIgnoresCase` | levels.go:46-48 | a string parses to the same level as its lower-cased form |
| `Levels.ToLevelMeaning` | levels.go:46-55 | `ToLevel(s) == l` exactly when the lower-cased `s` is `l`'s label, or when `l` is the default and the lower-cased `s` is no label |
| `Levels.ToLevelOfVariant` | levels.go:47-48 | any upper/lower-case variant of a label parses to that label's level |
| `Levels.ToLevelOfUnknown` | levels.go:46-52 | a string that is no label after lower-casing parses to the notice level |
| `Levels.ToLevelOfLong` | levels.go:48-52 | a string longer than every label parses to the notice level |
| `Levels.TablesInverse` | levels.go:20-40 | the label table and the value table are inverse to each other, and the label table covers exactly the named levels |
| `Levels.ToLevelOfUpperExample` | levels.go:46-55 | "WARNING" parses to the warning level |
| `Levels.ToLevelOfLowerExample` | levels.go:46-55 | "warning" parses to the warning level |
| `Levels.ToLevelOfGarbageExample` | levels.go:50-51 | "unknown-garbage" parses to the notice level |
| `Paths.LastSeparator` | logger.go:203 | finds the last separator, or -1 if there is none: the index holds a separator and no separator comes after it |
| `Paths.Split` | logger.go:203 | dir + file is the path; dir is empty or ends at a separator; file has no separator |
| `Paths.SplitUnique` | logger.go:203 | any split at a separator that leaves a separator-free file name is the split `filepath.Split` returns |
| `Paths.Fields` | logger.go:206-208 | every directory segment is non-empty and separator-free; a segment of a directory that ends at a separator is shorter than the directory |
| `Paths.FieldsOfSeparators` | logger.go:206-208 | a run of separators alone, or the empty string, has no segments |
| `Paths.FieldsAppend` | logger.go:206-208 | after a prefix that ends at a separator, the segments of the rest are appended unchanged |
| `Paths.FieldsOfSegment` | logger.go:206-208 | a segment followed only by separators gives exactly that one segment |
| `Paths.Join` | logger.go:212 | never longer than dir + "/" + file; equal to dir + "/" + file for an ordinary file name and a dir other than "." |
| `Paths.Truncate` | logger.go:201-216 | a path without a separator is returned unchanged; the result is never longer than the path |
| `Paths.TruncateLastSegment` | logger.go:203-213 | for a path that is prefix, last segment, one or more separators, then file name, the result is the segment joined to the file name |
| `Paths.TruncateNoSegment` | logger.go:210-215 | when the directory part is only separators (or empty), the result is the bare file name |
| `Paths.TruncateShape` | logger.go:203-215 | for an ordinary file name whose directory segments are not ".", the result ends with the file name and holds at most one separator |
| `Paths.TruncateExampleNested` | logger.go:199 | "project/Src/" + "model" + "/" + "user.go" gives "model/user.go" |
| `Paths.TruncateExampleBare` | logger.go:200 | "main.go" gives "main.go", and "" gives "" |
| `Paths.TruncateExampleRoot` | logger.go:210-215 | "/x.go" gives "x.go" |
| `Paths.TruncateExampleRepeatedSeparators` | logger.go:205-212 | "//" + "a" + "//" + "b.go" gives "a/b.go": separators in the directory are ignored |
| `Fields.Combine` | logger.go:106-116 | the result is a slice ending in the incoming value: a pending slice is kept as its prefix, and any other pending value becomes [old, new] |
| `Fields.Step` | logger.go:104-121 | a key with no pending value takes the incoming value; a pending key becomes a slice ending in the incoming value |
| `Fields.MergeOne` | logger.go:104-122 | merging one argument keeps every pending key and adds the argument's keys; keys the argument does not carry keep their value; the per-branch values are stated by `MergeOneNewKey`, `MergeOneScalar` and `MergeOneSlice` |
| `Fields.MergeAll` | logger.go:103-123 | merging all arguments loses no pending key and keeps every key of the last argument; its full meaning is stated by `MergeAllAccumulates` and `MergeAllKeys` |
| `Fields.MergeOneNewKey` | logger.go:120-121 | a key that is not pending is stored as the incoming value itself |
| `Fields.MergeOneScalar` | logger.go:115-116 | a pending value that is not a slice becomes the two-element slice [old, new] |
| `Fields.MergeOneSlice` | logger.go:106-112 | a pending slice gets the new value appended at its end |
| `Fields.MergeOneInsert` | logger.go:104-122 | merging one more key of an argument changes only that key, starting from its pending value |
| `Fields.GatherSnoc` | logger.go:108-116 | one more value on a gathered slice is appended at its end |
| `Fields.AccumulateSnoc` | logger.go:103-123 | the closed-form accumulation of one more value is one more merge step |
| `Fields.MergeAllAccumulates` | logger.go:103-123 | after all arguments, each key's value is its pending value followed by that key's incoming values in argument order: a single new value stays as it is, and anything more becomes one slice |
| `Fields.MergeAllKeys` | logger.go:96-123 | the merged keys are the pending keys plus every incoming key |
| `Fields.MergeAllUntouched` | logger.go:99-101 | a key that no argument carries keeps its pending value |
| `Fields.OccurrencesOfAbsent` | logger.go:103-104 | a key that no argument carries has no incoming values |
| `Fields.MergeTwiceExample` | logger.go:94-95 | `With(k: v1)` then `With(k: v2)` on an empty buffer gives `k: [v1, v2]` |
| `Logging.Src.TruncateFile` | logger.go:201-216 | the file becomes `Paths.Truncate` of the old file; the line is unchanged |
| `Logging.SrcOf` | logger.go:147-154 | a known caller's file is truncated and its line kept; an unknown caller gives "???" at line 0 |
| `Logging.Sink.Write` | logger.go:178 | the record is appended to what the sink has written |
| `Logging.CopyData` | logger.go:99-101 | the loop's copy equals the map it copies, whatever order the keys are visited in |
| `Logging.MergeNode` | logger.go:104-122 | merging one argument key by key, in any order, gives `MergeOne` of that argument |
| `Logging.New` | logger.go:34-40 | a fresh logger with the given name and threshold, an empty buffer and the given sink |
| `Logging.FieldLifecycle` | logger.go:91-179 | fields attached with `With` appear in exactly one record, a logger derived from the root leaves the root's buffer empty, chained `With` calls give `[v1, v2]`, and a call below the threshold writes nothing but clears the buffer; of the five calls exactly four write a record |
| `Logging.Logger.constructor` | logger.go:125-130 | the logger holds exactly the given name, threshold, fields and sink |
| `Logging.Logger.With` | logger.go:91-131 | a fresh logger with the receiver's name, threshold and sink, whose fields are `MergeAll` of the receiver's fields and the arguments; the receiver is not modified |
| `Logging.Logger.Output` | logger.go:134-179 | the buffer is empty afterwards; below the threshold nothing is written; otherwise exactly one record is appended, carrying the app name, the level's label, the message, the fields pending before the call and the caller's location |
| `Logging.Logger.Debug` | logger.go:43-45 | `Output` at the debug level |
| `Logging.Logger.Info` | logger.go:48-50 | `Output` at the info level |
| `Logging.Logger.Notice` | logger.go:53-55 | `Output` at the notice level |
| `Logging.Logger.Warn` | logger.go:59-61 | `Output` at the warning level |
| `Logging.Logger.Error` | logger.go:64-66 | `Output` at the error level |
| `Logging.Logger.Critical` | logger.go:69-71 | `Output` at the critical level |
| `Logging.Logger.Alert` | logger.go:75-77 | `Output` at the alert level |
| `Logging.Logger.Emergency` | logger.go:80-82 | `Output` at the emergency level |
| `Logging.Logger.Fatal` | logger.go:85-88 | `Output` at the emergency level, then exit status 1 |
| `Echo.SrcFileParse` | adapter/echo.go:43-59 | equal to `Paths.Truncate`, the logger's truncation, on every input |
| `Echo.SrcFileParseAgrees` | adapter/echo.go:43-59 | `srcFileParse` and `Src.TruncateFile` give the same file for every path |
| `Echo.SrcFileParseExampleNested` | adapter/echo.go:41 | "project/src/" + "model" + "/" + "user.go" gives "model/user.go" |
| `Echo.SrcFileParseExampleBare` | adapter/echo.go:42 | "main.go" gives "main.go", and "" gives "" |

## Left out

- The mutex (logger.go:139-140, 160-170). It only makes the snapshot and the reset atomic. The model is sequential.
- `json.Marshal` and its fallback string (logger.go:172-176). The record is a datatype, not bytes. No value the model can hold fails to marshal, so the fallback never arises. An empty `data` stands for the record without a `data` field (`omitempty`).
- The error returned by the sink's `Write`. The logger discards it, so `Sink.Write` returns nothing.
- `fmt.Sprintf` formatting in the severity methods. They take the finished message.
- `time.Now().UTC()` and `runtime.Caller(callDepth)`. They are the parameters `now` and `caller`; the call depth is not modelled.
- `os.Exit(1)` in `Fatal`. `Fatal` returns the exit status instead of ending a process.
- Go slice aliasing. `append` at logger.go:110 can share a backing array between loggers derived from the same parent. The model gives slices value semantics.
- Unicode case folding in `strings.ToLower`. `ToLower` lowers ASCII letters only.
- `filepath.Separator` is fixed to '/'. There is no Windows volume handling in `filepath.Split`.
- `filepath.Join` is modelled only for a non-empty segment and a file name, both without separators. That is the only way the source calls it.
- writers.go (the stdout writer and the detached HTTP POST writer) is not part of this model. It consists of network I/O and concurrency. The sink is only the sequence of records written.
- setup.go is not part of this model. It reads an environment variable and then calls `ToLevel`, `New` and `With`, which are modelled.
- `ForEcho` (adapter/echo.go:14-37) is not part of this model. It builds a format string for an external middleware library and calls logger members that logger.go does not define.
