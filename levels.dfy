/** Severity levels of the logger (levels.go): an ordered integer enumeration,
    a label for each level, and a case-insensitive parse that falls back to
    the notice level. */
module Levels {

  /** Go's `type Level int`: any integer is a Level, only 0..7 are named. */
  newtype Level = int {

    /** `Level.String`: the label of the level, or the empty string (the zero
        value of a missing map entry) for a value outside 0..7. */
    function String(): (s: string)
      ensures IsNamed(this) ==> s != "" && IsLowerAscii(s)
      ensures !IsNamed(this) ==> s == ""
    {
      if this in LevelLabels then LevelLabels[this] else ""
    }
  }

  const DebugLevel: Level := 0
  const InfoLevel: Level := 1
  const NoticeLevel: Level := 2
  const WarningLevel: Level := 3
  const ErrorLevel: Level := 4
  const CriticalLevel: Level := 5
  const AlertLevel: Level := 6
  const EmergencyLevel: Level := 7

  /** The level `ToLevel` answers for a string that is not a label. */
  const DefaultLevel: Level := NoticeLevel

  const LevelLabels: map<Level, string> := map[
    DebugLevel := "debug",
    InfoLevel := "info",
    NoticeLevel := "notice",
    WarningLevel := "warning",
    ErrorLevel := "error",
    CriticalLevel := "critical",
    AlertLevel := "alert",
    EmergencyLevel := "emergency"
  ]

  const LevelValues: map<string, Level> := map[
    "debug" := DebugLevel,
    "info" := InfoLevel,
    "notice" := NoticeLevel,
    "warning" := WarningLevel,
    "error" := ErrorLevel,
    "critical" := CriticalLevel,
    "alert" := AlertLevel,
    "emergency" := EmergencyLevel
  ]

  /** One of the eight declared levels. */
  predicate IsNamed(l: Level) {
    DebugLevel <= l <= EmergencyLevel
  }

  /** `strings.ToLower`, restricted to ASCII letters. */
  function LowerChar(c: char): (d: char)
    ensures 'A' <= c <= 'Z' ==> 'a' <= d <= 'z' && d as int - c as int == 'a' as int - 'A' as int
    ensures !('A' <= c <= 'Z') ==> d == c
  {
    if 'A' <= c <= 'Z' then (c as int - 'A' as int + 'a' as int) as char else c
  }

  predicate IsLowerAscii(s: string) {
    forall i :: 0 <= i < |s| ==> !('A' <= s[i] <= 'Z')
  }

  function ToLower(s: string): (r: string)
    ensures |r| == |s|
    ensures forall i :: 0 <= i < |s| ==> r[i] == LowerChar(s[i])
    ensures IsLowerAscii(r)
  {
    if s == [] then [] else [LowerChar(s[0])] + ToLower(s[1..])
  }

  /** `ToLevel`: lower-case the input and look it up in the value table;
      a miss yields the default level. */
  function ToLevel(value: string): (l: Level)
    ensures IsNamed(l)
  {
    var v := ToLower(value);
    if v in LevelValues then LevelValues[v] else DefaultLevel
  }

  /** The eight levels have the values 0..7 in increasing severity. */
  lemma LevelsOrdered()
    ensures DebugLevel == 0 && EmergencyLevel == 7
    ensures DebugLevel < InfoLevel < NoticeLevel < WarningLevel < ErrorLevel
    ensures ErrorLevel < CriticalLevel < AlertLevel < EmergencyLevel
    ensures forall l: Level :: IsNamed(l) <==> 0 <= l <= 7
  {
  }

  /** Lower-casing a string that has no upper-case letter changes nothing. */
  lemma {:induction false} ToLowerOfLower(s: string)
    requires IsLowerAscii(s)
    ensures ToLower(s) == s
  {
    var r := ToLower(s);
    assert forall i | 0 <= i < |s| :: r[i] == s[i];
  }

  /** Lower-casing is idempotent. */
  lemma ToLowerIdempotent(s: string)
    ensures ToLower(ToLower(s)) == ToLower(s)
  {
    ToLowerOfLower(ToLower(s));
  }

  /** Parsing the label of a level gives the level back. */
  lemma ToLevelOfString(l: Level)
    requires IsNamed(l)
    ensures ToLevel(l.String()) == l
  {
    var name := l.String();
    ToLowerOfLower(name);
    LabelRoundTrip(l);
  }

  /** The value table maps each label back to its level. */
  lemma LabelRoundTrip(l: Level)
    requires IsNamed(l)
    ensures l.String() in LevelValues && LevelValues[l.String()] == l
  {
    assert l in LevelLabels;
  }

  /** The labels are pairwise distinct, so `String` is injective on the named levels. */
  lemma StringInjective(a: Level, b: Level)
    requires IsNamed(a) && IsNamed(b)
    requires a.String() == b.String()
    ensures a == b
  {
  }

  /** Parsing ignores case: a string parses as its lower-cased form does. */
  lemma ToLevelIgnoresCase(s: string)
    ensures ToLevel(s) == ToLevel(ToLower(s))
  {
    ToLowerIdempotent(s);
  }

  /** `ToLevel` in terms of the label table alone: a named level is the result
      exactly when it is the label of the lower-cased input, or when it is the
      default and the lower-cased input is no label at all. */
  lemma ToLevelMeaning(s: string, l: Level)
    requires IsNamed(l)
    ensures ToLevel(s) == l <==>
      (ToLower(s) == l.String() ||
       (l == DefaultLevel && forall m: Level :: IsNamed(m) ==> ToLower(s) != m.String()))
  {
    var v := ToLower(s);
    if v in LevelValues {
      assert LevelValues[v].String() == v;
      if ToLevel(s) != l {
        assert v != l.String();
      }
    } else {
      forall m: Level | IsNamed(m) ensures v != m.String() {
        assert m.String() in LevelValues;
      }
      assert l.String() in LevelValues;
    }
  }

  /** Any upper/lower-case variant of a label parses to that level. */
  lemma ToLevelOfVariant(s: string, l: Level)
    requires IsNamed(l)
    requires ToLower(s) == l.String()
    ensures ToLevel(s) == l
  {
    ToLevelMeaning(s, l);
  }

  /** A string that is no label, whatever its case, parses to the notice level. */
  lemma ToLevelOfUnknown(s: string)
    requires forall m: Level :: IsNamed(m) ==> ToLower(s) != m.String()
    ensures ToLevel(s) == NoticeLevel
  {
    ToLevelMeaning(s, NoticeLevel);
  }

  /** The two tables are inverse to each other. */
  lemma TablesInverse()
    ensures forall l :: l in LevelLabels ==> LevelLabels[l] in LevelValues && LevelValues[LevelLabels[l]] == l
    ensures forall v :: v in LevelValues ==> LevelValues[v] in LevelLabels && LevelLabels[LevelValues[v]] == v
    ensures forall l: Level :: l in LevelLabels <==> IsNamed(l)
  {
    assert forall l: Level :: IsNamed(l) ==> l in LevelLabels;
  }

  /** "WARNING" parses, case-insensitively, to the warning level. */
  lemma ToLevelOfUpperExample(w: string)
    requires w == "WARNING"
    ensures ToLevel(w) == WarningLevel
  {
    var v := ToLower(w);
    assert v == WarningLevel.String() by {
      assert forall i | 0 <= i < 7 :: v[i] == "warning"[i];
    }
    ToLevelOfVariant(w, WarningLevel);
  }

  /** "warning" parses to the warning level. */
  lemma ToLevelOfLowerExample()
    ensures ToLevel("warning") == WarningLevel
  {
    ToLevelOfString(WarningLevel);
  }

  /** No label is longer than nine characters, so a longer string parses to the default. */
  lemma ToLevelOfLong(s: string)
    requires |s| > 9
    ensures ToLevel(s) == NoticeLevel
  {
    assert ToLower(s) !in LevelValues by {
      assert forall v | v in LevelValues :: |v| <= 9;
    }
  }

  lemma ToLevelOfGarbageExample()
    ensures ToLevel("unknown-garbage") == NoticeLevel
  {
    ToLevelOfLong("unknown-garbage");
  }
}
