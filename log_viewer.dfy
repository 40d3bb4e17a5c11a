/**
 * The log viewer: splitting a log line back into its four fields, the colour
 * class of a level, the file selector's filter, and the order of the files.
 */
module LogViewer {
  import opened Wrappers
  import opened Text
  import opened Seqs
  import opened Sorting
  import opened Logging

  /** `s.substringAfter(d)`: the missing-delimiter value is `s` itself. */
  function After(s: string, d: string): string {
    SubstringAfter(s, d, s)
  }

  /** `s.substringBefore(d)`: the missing-delimiter value is `s` itself. */
  function Before(s: string, d: string): string {
    SubstringBefore(s, d, s)
  }

  /** The four fields the viewer shows for a line. */
  datatype LogLine = LogLine(timestamp: string, level: string, className: string, message: string)

  predicate NoBrackets(s: string) {
    '[' !in s && ']' !in s
  }

  /**
   * The `LogLine` composable's split, as written: the class name is taken after
   * the first occurrence of `[level] [` anywhere in the line.
   */
  function ParseLine(line: string): LogLine {
    var timestamp := Before(After(line, "["), "]");
    var level := Before(After(line, "[" + timestamp + "] ["), "]");
    var className := Before(After(line, "[" + level + "] ["), "]");
    var message := After(line, className + "]: ");
    LogLine(timestamp, level, className, message)
  }

  /** The split with the class name taken after the `[timestamp] [level] [` prefix. */
  function ParseLineFixed(line: string): LogLine {
    var timestamp := Before(After(line, "["), "]");
    var level := Before(After(line, "[" + timestamp + "] ["), "]");
    var className := Before(After(line, "[" + timestamp + "] [" + level + "] ["), "]");
    var message := After(line, className + "]: ");
    LogLine(timestamp, level, className, message)
  }

  /** How the viewer re-emits the fields: `[ts] [level] [className]: message`. */
  function Render(l: LogLine): string {
    Line(l.timestamp, l.level, l.className, l.message)
  }

  // ---------------------------------------------------------------------------
  // Field extraction
  // ---------------------------------------------------------------------------

  /** A string that starts with `d` continues with what `substringAfter(d)` returns. */
  lemma AfterPrefix(d: string, rest: string)
    ensures After(d + rest, d) == rest
  {
    assert (d + rest)[..|d|] == d;
    FirstOccurrence(d + rest, d, 0);
  }

  /** The text before the first ']' when the text in front holds no ']'. */
  lemma BeforeBracket(a: string, rest: string)
    requires ']' !in a
    ensures Before(a + "]" + rest, "]") == a
  {
    BeforeFirstChar(a, ']', rest);
  }

  /** The timestamp field of a well-formed line. */
  lemma TimestampField(ts: string, lv: string, cls: string, msg: string)
    requires NoBrackets(ts)
    ensures Before(After(Line(ts, lv, cls, msg), "["), "]") == ts
  {
    var rest := " [" + lv + "] [" + cls + "]: " + msg;
    TimestampShape(ts, lv, cls, msg);
    AfterPrefix("[", ts + "]" + rest);
    BeforeBracket(ts, rest);
  }

  /** A line is an opening bracket, the timestamp, a closing bracket and the rest. */
  lemma TimestampShape(ts: string, lv: string, cls: string, msg: string)
    ensures Line(ts, lv, cls, msg) == "[" + (ts + "]" + (" [" + lv + "] [" + cls + "]: " + msg))
  {
  }

  /** The level field of a well-formed line. */
  lemma LevelField(ts: string, lv: string, cls: string, msg: string)
    requires ']' !in lv
    ensures Before(After(Line(ts, lv, cls, msg), "[" + ts + "] ["), "]") == lv
  {
    var line := Line(ts, lv, cls, msg);
    var rest := " [" + cls + "]: " + msg;
    assert line == ("[" + ts + "] [") + (lv + "]" + rest);
    AfterPrefix("[" + ts + "] [", lv + "]" + rest);
    BeforeBracket(lv, rest);
  }

  /** A string that starts with `d` agrees with `d` at each of its positions. */
  lemma SameCharAt(s: string, d: string, k: nat)
    requires |d| <= |s| && s[..|d|] == d && k < |d|
    ensures s[k] == d[k]
  {
    assert s[..|d|][k] == s[k];
  }

  /** `[lv] [` cannot start a line `[ts] [...` unless `ts` and `lv` are the same text. */
  lemma LevelPrefixOnlyIfEqual(ts: string, lv: string, rest: string)
    requires ']' !in ts && ']' !in lv
    requires OccursAt("[" + ts + "] " + rest, "[" + lv + "] [", 0)
    ensures ts == lv
  {
    var s := "[" + ts + "] " + rest;
    var d := "[" + lv + "] [";
    assert s[..|d|] == d;
    if |lv| < |ts| {
      SameCharAt(s, d, 1 + |lv|);
      assert false;
    } else if |lv| > |ts| {
      SameCharAt(s, d, 1 + |ts|);
      assert false;
    } else {
      assert s[1..1 + |ts|] == ts;
      assert d[1..1 + |lv|] == lv;
      assert s[..|d|][1..1 + |lv|] == s[1..1 + |lv|];
    }
  }

  /** A delimiter cannot start where the text holds a different character from its first one. */
  lemma MismatchAt(s: string, d: string, j: nat)
    requires j < |s| && |d| > 0 && s[j] != d[0]
    ensures !OccursAt(s, d, j)
  {
  }

  /** The class-name field of a well-formed line whose timestamp differs from its level. */
  lemma ClassNameField(ts: string, lv: string, cls: string, msg: string)
    requires NoBrackets(ts) && ']' !in lv && ']' !in cls && ts != lv
    ensures Before(After(Line(ts, lv, cls, msg), "[" + lv + "] ["), "]") == cls
  {
    var a := "[" + ts + "] ";
    var d := "[" + lv + "] [";
    var b := cls + "]: " + msg;
    var s := a + d + b;
    assert Line(ts, lv, cls, msg) == s;
    forall j | 0 <= j < |a| ensures !OccursAt(s, d, j) {
      if j == 0 {
        if OccursAt(s, d, 0) {
          assert s == "[" + ts + "] " + (d + b);
          LevelPrefixOnlyIfEqual(ts, lv, d + b);
        }
      } else {
        assert s[j] == a[j];
        if j <= |ts| {
          assert a[j] == ts[j - 1];
        }
        MismatchAt(s, d, j);
      }
    }
    BeforeFirst(a, d, b);
    assert b == cls + "]" + (": " + msg);
    BeforeBracket(cls, ": " + msg);
  }

  /** The character at each position of a well-formed line up to the closing bracket of the class name. */
  lemma NoColonAfterEarlyBracket(ts: string, lv: string, cls: string, msg: string, q: nat)
    requires ']' !in ts && ']' !in lv && ']' !in cls
    requires q + 1 < |Line(ts, lv, cls, msg)| && q < |ts| + |lv| + 7 + |cls|
    requires Line(ts, lv, cls, msg)[q] == ']'
    ensures Line(ts, lv, cls, msg)[q + 1] == ' '
  {
    var line := Line(ts, lv, cls, msg);
    var p1 := "[" + ts;
    var p2 := p1 + "] [" + lv;
    var p3 := p2 + "] [" + cls;
    assert line == p3 + "]: " + msg;
    assert line == p2 + "] [" + cls + "]: " + msg;
    assert line == p1 + "] [" + lv + "] [" + cls + "]: " + msg;
    if q < |p1| {
    } else if q < |p1| + 3 {
    } else if q < |p2| {
    } else if q < |p2| + 3 {
    } else {
    }
  }

  /** The message field of a well-formed line. */
  lemma MessageField(ts: string, lv: string, cls: string, msg: string)
    requires ']' !in ts && ']' !in lv && ']' !in cls
    ensures After(Line(ts, lv, cls, msg), cls + "]: ") == msg
  {
    var line := Line(ts, lv, cls, msg);
    var a := "[" + ts + "] [" + lv + "] [";
    var d := cls + "]: ";
    assert line == a + d + msg;
    forall j | 0 <= j < |a| ensures !OccursAt(a + d + msg, d, j) {
      if OccursAt(a + d + msg, d, j) {
        var q := j + |cls|;
        assert line[j..j + |d|] == d;
        assert line[q] == d[|cls|] == ']';
        assert line[q + 1] == d[|cls| + 1] == ':';
        NoColonAfterEarlyBracket(ts, lv, cls, msg, q);
      }
    }
    BeforeFirst(a, d, msg);
  }

  // ---------------------------------------------------------------------------
  // Round trips
  // ---------------------------------------------------------------------------

  /**
   * Splitting a line recovers its four fields when the first three hold no
   * brackets and the timestamp differs from the level.
   */
  lemma ParseLineRoundTrip(ts: string, lv: string, cls: string, msg: string)
    requires NoBrackets(ts) && NoBrackets(lv) && NoBrackets(cls) && ts != lv
    ensures ParseLine(Line(ts, lv, cls, msg)) == LogLine(ts, lv, cls, msg)
    ensures Render(ParseLine(Line(ts, lv, cls, msg))) == Line(ts, lv, cls, msg)
  {
    TimestampField(ts, lv, cls, msg);
    LevelField(ts, lv, cls, msg);
    ClassNameField(ts, lv, cls, msg);
    MessageField(ts, lv, cls, msg);
  }

  /**
   * A line whose timestamp equals its level loses its class name: the search for
   * `[level] [` stops at the timestamp, so the level is read again as the class
   * (`[A] [A] [B]: ` reads as class "A").
   */
  lemma ClassNameMisparsed(ts: string, cls: string, msg: string)
    requires NoBrackets(ts)
    ensures ParseLine(Line(ts, ts, cls, msg)).className == ts
  {
    LevelField(ts, ts, cls, msg);
    TimestampField(ts, ts, cls, msg);
  }

  /** The class-name field as the corrected split reads it. */
  lemma FixedClassNameField(ts: string, lv: string, cls: string, msg: string)
    requires ']' !in cls
    ensures Before(After(Line(ts, lv, cls, msg), "[" + ts + "] [" + lv + "] ["), "]") == cls
  {
    var prefix := "[" + ts + "] [" + lv + "] [";
    var rest := cls + "]" + (": " + msg);
    assert Line(ts, lv, cls, msg) == prefix + rest;
    AfterPrefix(prefix, rest);
    BeforeBracket(cls, ": " + msg);
  }

  /** The corrected split recovers the four fields without any condition on the timestamp. */
  lemma ParseLineFixedRoundTrip(ts: string, lv: string, cls: string, msg: string)
    requires NoBrackets(ts) && NoBrackets(lv) && NoBrackets(cls)
    ensures ParseLineFixed(Line(ts, lv, cls, msg)) == LogLine(ts, lv, cls, msg)
    ensures Render(ParseLineFixed(Line(ts, lv, cls, msg))) == Line(ts, lv, cls, msg)
  {
    TimestampField(ts, lv, cls, msg);
    LevelField(ts, lv, cls, msg);
    FixedClassNameField(ts, lv, cls, msg);
    MessageField(ts, lv, cls, msg);
  }

  /** Every entry the logger writes (minus its newline) splits back into what was logged. */
  lemma LoggerEntriesParse(ts: string, level: LogLevel, cls: string, msg: string)
    requires IsTimestamp(ts) && NoBrackets(cls)
    ensures ParseLine(Line(ts, LevelName(level), cls, msg)) == LogLine(ts, LevelName(level), cls, msg)
  {
    TimestampIsNoLevel(ts, level);
    ParseLineRoundTrip(ts, LevelName(level), cls, msg);
  }

  // ---------------------------------------------------------------------------
  // Presentation
  // ---------------------------------------------------------------------------

  /** The colour a level is shown in. */
  datatype LevelStyle = Green | Yellow | Red | White

  /** "INFO", "WARN" and "ERROR" each have their own colour; any other level is white. */
  function StyleOf(level: string): (s: LevelStyle)
    ensures s == Green <==> level == "INFO"
    ensures s == Yellow <==> level == "WARN"
    ensures s == Red <==> level == "ERROR"
  {
    if level == "INFO" then Green
    else if level == "WARN" then Yellow
    else if level == "ERROR" then Red
    else White
  }

  /** Whether a file name contains the filter text, ignoring case. */
  function MatchesFilter(filter: string): string -> bool {
    n => ContainsIgnoreCase(n, filter)
  }

  /** The selector keeps the file names that contain the filter text, ignoring case, each as often as listed. */
  function FilterLogs(names: seq<string>, filter: string): (r: seq<string>)
    ensures forall n :: n in r <==> n in names && ContainsIgnoreCase(n, filter)
    ensures forall n :: multiset(r)[n] == if ContainsIgnoreCase(n, filter) then multiset(names)[n] else 0
  {
    Keep(names, MatchesFilter(filter))
  }

  /** Filtering keeps the listed order: it distributes over concatenation. */
  lemma FilterLogsAppend(a: seq<string>, b: seq<string>, filter: string)
    ensures FilterLogs(a + b, filter) == FilterLogs(a, filter) + FilterLogs(b, filter)
  {
    KeepAppend(a, b, MatchesFilter(filter));
  }

  /** An empty filter keeps every file, in order. */
  lemma EmptyFilterKeepsAll(names: seq<string>)
    ensures FilterLogs(names, "") == names
  {
    forall n | n in names ensures ContainsIgnoreCase(n, "") {
      ContainsEmpty(n);
    }
    KeepAll(names, MatchesFilter(""));
  }

  /** The files as listed: sorted by name, descending, so the newest date of a month comes first. */
  function OrderLogFiles(names: seq<string>): (r: seq<string>)
    ensures multiset(r) == multiset(names)
    ensures forall i, j :: 0 <= i < j < |r| ==> !StrLess(r[i], r[j])
  {
    var r := Sort(names, n => Str(n), true);
    assert forall i, j :: 0 <= i < j < |r| ==> !Sorting.Before(Str(r[j]), Str(r[i]), true);
    r
  }

  /** The initially selected file: the first in order, or none when the directory is empty. */
  function InitialSelection(names: seq<string>): (r: Option<string>)
    ensures r.None? <==> names == []
    ensures r.Some? ==> (r.value == OrderLogFiles(names)[0] &&
                         forall n :: n in names ==> !StrLess(r.value, n))
  {
    var ordered := OrderLogFiles(names);
    if names == [] then None
    else
      assert |ordered| == |names| by {
        assert |multiset(ordered)| == |multiset(names)|;
      }
      forall n | n in names ensures !StrLess(ordered[0], n) {
        assert n in multiset(ordered);
        var k :| 0 <= k < |ordered| && ordered[k] == n;
        if k > 0 {
        } else {
          StrLessIrreflexive(n);
        }
      }
      Some(ordered[0])
  }
}
