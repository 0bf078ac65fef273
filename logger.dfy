/** The logger core (logger.go): a `Logger` with an immutable application
    name, a threshold level, a sink shared with every logger derived from it,
    and a buffer of pending structured fields. `With` derives a new logger
    whose buffer is the receiver's merged with the incoming data; each
    severity call drains the buffer, and writes one record to the sink when
    its level is at or above the threshold. */
module Logging {
  import opened Levels
  import opened Fields
  import Paths

  /** A source location (`Src`). */
  datatype Src = Src(file: string, line: int) {

    /** `Src.TruncateFile`: keep only the last directory and the file name. */
    function TruncateFile(): (s: Src)
      ensures s.file == Paths.Truncate(file) && s.line == line
    {
      Src(Paths.Truncate(file), line)
    }
  }

  /** What `runtime.Caller` reports for the caller of a severity method. */
  datatype Frame = Frame(ok: bool, file: string, line: int)

  /** The instant of emission (`time.Now().UTC()`), supplied by the caller. */
  type Time = int

  /** One log record (`WriteLog`). An empty `data` is the record without a
      data field. */
  datatype WriteLog = WriteLog(time: Time, app: string, level: string, msg: string, data: Data, src: Src)

  /** The source location a record carries: the truncated caller location, or
      "???" at line 0 when the caller cannot be determined. */
  function SrcOf(caller: Frame): (s: Src)
    ensures caller.ok ==> s.file == Paths.Truncate(caller.file) && s.line == caller.line
    ensures !caller.ok ==> s == Src("???", 0)
  {
    if caller.ok then Src(caller.file, caller.line).TruncateFile() else Src("???", 0)
  }

  /** The log sink: every record written to it, in order. */
  class Sink {
    var written: seq<WriteLog>

    constructor ()
      ensures written == []
    {
      written := [];
    }

    method Write(rec: WriteLog)
      modifies this
      ensures written == old(written) + [rec]
    {
      written := written + [rec];
    }
  }

  /** A copy of `m`, built entry by entry as the range loops of `With` and
      `output` do; Go's iteration order is left open. */
  method CopyData(m: Data) returns (c: Data)
    ensures c == m
  {
    c := map[];
    var pending := m.Keys;
    while pending != {}
      invariant pending <= m.Keys
      invariant c == map k | k in m.Keys - pending :: m[k]
      decreases pending
    {
      var key :| key in pending;
      c := c[key := m[key]];
      pending := pending - {key};
    }
  }

  /** The inner loop of `With`: merge the entries of one argument into
      `merged`, one key at a time in an unspecified order. */
  method MergeNode(merged: Data, node: Data) returns (r: Data)
    ensures r == MergeOne(merged, node)
  {
    r := merged;
    var keys := node.Keys;
    while keys != {}
      invariant keys <= node.Keys
      invariant r == MergeOne(merged, Restrict(node, node.Keys - keys))
      decreases keys
    {
      var key :| key in keys;
      MergeOneInsert(merged, node, node.Keys - keys, key);
      assert node.Keys - (keys - {key}) == (node.Keys - keys) + {key};
      if key in r {
        var current := r[key];
        if current.Slice? {
          r := r[key := Slice(current.items + [node[key]])];
        } else {
          r := r[key := Slice([current, node[key]])];
        }
      } else {
        r := r[key := node[key]];
      }
      keys := keys - {key};
    }
    assert Restrict(node, node.Keys) == node;
  }

  /** `New`: a logger with an empty field buffer writing to `out`. */
  method New(app: string, logLevel: Level, out: Sink) returns (l: Logger)
    ensures fresh(l)
    ensures l.app == app && l.level == logLevel && l.out == out && l.data == map[]
  {
    l := new Logger(app, logLevel, map[], out);
  }

  class Logger {
    const level: Level
    const app: string
    const out: Sink
    var data: Data

    constructor (app: string, level: Level, data: Data, out: Sink)
      ensures this.app == app && this.level == level && this.data == data && this.out == out
    {
      this.app := app;
      this.level := level;
      this.data := data;
      this.out := out;
    }

    /** The effect of one call at `lvl` on the records written: nothing below
        the threshold, otherwise exactly one record holding the application
        name, the level's label, the message, the pending fields `pending`
        and the caller's truncated location. */
    ghost predicate Emits(lvl: Level, msg: string, now: Time, caller: Frame,
                          pending: Data, before: seq<WriteLog>, after: seq<WriteLog>)
    {
      if lvl < level then after == before
      else after == before + [WriteLog(now, app, lvl.String(), msg, pending, SrcOf(caller))]
    }

    /** `With`: a new logger with the same name, threshold and sink, whose
        fields are the receiver's merged with `args` in order; the receiver's
        own fields are left alone. */
    method With(args: seq<Data>) returns (l: Logger)
      ensures fresh(l)
      ensures l.app == app && l.level == level && l.out == out
      ensures l.data == MergeAll(data, args)
    {
      var merged := CopyData(data);
      for i := 0 to |args|
        invariant merged == MergeAll(data, args[..i])
      {
        merged := MergeNode(merged, args[i]);
        assert args[..i + 1][..i] == args[..i];
      }
      assert args[..|args|] == args;
      l := new Logger(app, level, merged, out);
    }

    /** `output`: below the threshold the pending fields are dropped and
        nothing is written; otherwise one record carrying the pending fields
        is written. The buffer is empty afterwards in both cases. */
    method Output(lvl: Level, msg: string, now: Time, caller: Frame)
      modifies this`data, out
      ensures data == map[]
      ensures Emits(lvl, msg, now, caller, old(data), old(out.written), out.written)
    {
      if lvl < level {
        data := map[];
        return;
      }
      var src := SrcOf(caller);
      var fields := CopyData(data);
      var rec := WriteLog(now, app, lvl.String(), msg, fields, src);
      data := map[];
      out.Write(rec);
    }

    method Debug(msg: string, now: Time, caller: Frame)
      modifies this`data, out
      ensures data == map[]
      ensures Emits(DebugLevel, msg, now, caller, old(data), old(out.written), out.written)
    {
      Output(DebugLevel, msg, now, caller);
    }

    method Info(msg: string, now: Time, caller: Frame)
      modifies this`data, out
      ensures data == map[]
      ensures Emits(InfoLevel, msg, now, caller, old(data), old(out.written), out.written)
    {
      Output(InfoLevel, msg, now, caller);
    }

    method Notice(msg: string, now: Time, caller: Frame)
      modifies this`data, out
      ensures data == map[]
      ensures Emits(NoticeLevel, msg, now, caller, old(data), old(out.written), out.written)
    {
      Output(NoticeLevel, msg, now, caller);
    }

    method Warn(msg: string, now: Time, caller: Frame)
      modifies this`data, out
      ensures data == map[]
      ensures Emits(WarningLevel, msg, now, caller, old(data), old(out.written), out.written)
    {
      Output(WarningLevel, msg, now, caller);
    }

    method Error(msg: string, now: Time, caller: Frame)
      modifies this`data, out
      ensures data == map[]
      ensures Emits(ErrorLevel, msg, now, caller, old(data), old(out.written), out.written)
    {
      Output(ErrorLevel, msg, now, caller);
    }

    method Critical(msg: string, now: Time, caller: Frame)
      modifies this`data, out
      ensures data == map[]
      ensures Emits(CriticalLevel, msg, now, caller, old(data), old(out.written), out.written)
    {
      Output(CriticalLevel, msg, now, caller);
    }

    method Alert(msg: string, now: Time, caller: Frame)
      modifies this`data, out
      ensures data == map[]
      ensures Emits(AlertLevel, msg, now, caller, old(data), old(out.written), out.written)
    {
      Output(AlertLevel, msg, now, caller);
    }

    method Emergency(msg: string, now: Time, caller: Frame)
      modifies this`data, out
      ensures data == map[]
      ensures Emits(EmergencyLevel, msg, now, caller, old(data), old(out.written), out.written)
    {
      Output(EmergencyLevel, msg, now, caller);
    }

    /** `Fatal`: an emergency record, then the process exits with the
        returned status. */
    method Fatal(msg: string, now: Time, caller: Frame) returns (exitStatus: int)
      modifies this`data, out
      ensures data == map[]
      ensures Emits(EmergencyLevel, msg, now, caller, old(data), old(out.written), out.written)
      ensures exitStatus == 1
    {
      Output(EmergencyLevel, msg, now, caller);
      exitStatus := 1;
    }
  }

  /** A client of the contracts above: fields attached with `With` are
      consumed exactly once, derived loggers leave the original's buffer
      alone, chained `With` calls accumulate, and a gated call writes
      nothing but still clears the buffer. */
  method FieldLifecycle(out: Sink, v1: Value, v2: Value, caller: Frame)
    requires !v1.Slice?
    modifies out
    ensures |out.written| == old(|out.written|) + 4
  {
    var root := New("svc", InfoLevel, out);
    var a := root.With([map["k" := v1]]);
    a.Info("a", 0, caller);
    assert out.written[|out.written| - 1].data == map["k" := v1];
    assert a.data == map[];

    a.Info("again", 1, caller);
    assert out.written[|out.written| - 1].data == map[];

    var b := root.With([map["k" := v2]]);
    assert root.data == map[];
    b.Info("b", 2, caller);
    assert out.written[|out.written| - 1].data == map["k" := v2];

    var c := root.With([map["k" := v1]]);
    var c2 := c.With([map["k" := v2]]);
    MergeTwiceExample(v1, v2);
    assert c2.data == map["k" := Slice([v1, v2])] by {
      assert c.data == MergeAll(map[], [map["k" := v1]]);
      assert MergeAll(map[], [map["k" := v1]]) == map["k" := v1];
      assert MergeAll(map["k" := v1], [map["k" := v2]]) == map["k" := Slice([v1, v2])];
    }
    c2.Info("c", 3, caller);
    assert out.written[|out.written| - 1].data == map["k" := Slice([v1, v2])];

    var d := root.With([map["k" := v1]]);
    var n := |out.written|;
    d.Debug("gated", 4, caller);
    assert |out.written| == n && d.data == map[];
  }
}
