/**
 * The application log: `[HH:mm:ss] [LEVEL] [class]: message` lines appended to
 * one file per day, written only while logging is switched on. The clock is a
 * parameter and the file system is a ghost map from path to contents.
 */
module Logging {
  import opened Text

  /** The severities the application logs with; a level prints as its upper-case name. */
  datatype LogLevel = Info | Warn | Error

  function LevelName(l: LogLevel): (name: string)
    ensures |name| >= 4 && ':' !in name && '[' !in name && ']' !in name
  {
    match l
    case Info => "INFO"
    case Warn => "WARN"
    case Error => "ERROR"
  }

  /** Different levels print differently. */
  lemma LevelNameInjective(a: LogLevel, b: LogLevel)
    requires LevelName(a) == LevelName(b)
    ensures a == b
  {
  }

  /** A wall-clock time of day. */
  datatype TimeOfDay = TimeOfDay(hour: int, minute: int, second: int) {
    predicate Valid() {
      0 <= hour < 24 && 0 <= minute < 60 && 0 <= second < 60
    }
  }

  /** A calendar date. */
  datatype Date = Date(day: int, month: int, year: int) {
    predicate Valid() {
      1 <= day <= 31 && 1 <= month <= 12 && 1000 <= year <= 9999
    }
  }

  /** The shape `HH:mm:ss`: two digits, a colon, two digits, a colon, two digits. */
  predicate IsTimestamp(ts: string) {
    |ts| == 8 && ts[2] == ':' && ts[5] == ':' &&
    IsDigit(ts[0]) && IsDigit(ts[1]) && IsDigit(ts[3]) && IsDigit(ts[4]) && IsDigit(ts[6]) && IsDigit(ts[7])
  }

  /** `SimpleDateFormat("HH:mm:ss")`. */
  function Timestamp(t: TimeOfDay): (ts: string)
    requires t.Valid()
    ensures IsTimestamp(ts)
    ensures DigitsValue(ts[..2]) == t.hour && DigitsValue(ts[3..5]) == t.minute && DigitsValue(ts[6..]) == t.second
  {
    Pad2Digits(t.hour);
    Pad2Digits(t.minute);
    Pad2Digits(t.second);
    TwoDigitsValue(t.hour);
    TwoDigitsValue(t.minute);
    TwoDigitsValue(t.second);
    var ts := Pad2(t.hour) + ":" + Pad2(t.minute) + ":" + Pad2(t.second);
    assert ts[..2] == Pad2(t.hour) && ts[3..5] == Pad2(t.minute) && ts[6..] == Pad2(t.second);
    ts
  }

  /** A timestamp always contains a colon, so it never reads as a level name. */
  lemma TimestampIsNoLevel(ts: string, l: LogLevel)
    requires IsTimestamp(ts)
    ensures ts != LevelName(l) && '[' !in ts && ']' !in ts
  {
    assert ts[2] == ':';
  }

  /** The shape `dd-MM-yyyy`: two digits, a dash, two digits, a dash, four digits. */
  predicate IsDateStamp(s: string) {
    |s| == 10 && s[2] == '-' && s[5] == '-' && AllDigits(s[..2]) && AllDigits(s[3..5]) && AllDigits(s[6..])
  }

  /** `SimpleDateFormat("dd-MM-yyyy")`. */
  function DateStamp(d: Date): (s: string)
    requires d.Valid()
    ensures IsDateStamp(s)
    ensures DigitsValue(s[..2]) == d.day && DigitsValue(s[3..5]) == d.month && DigitsValue(s[6..]) == d.year
  {
    Pad2Digits(d.day);
    Pad2Digits(d.month);
    TwoDigitsValue(d.day);
    TwoDigitsValue(d.month);
    NatToStringLength4(d.year);
    NatToStringValue(d.year);
    var s := Pad2(d.day) + "-" + Pad2(d.month) + "-" + NatToString(d.year);
    assert s[..2] == Pad2(d.day) && s[3..5] == Pad2(d.month) && s[6..] == NatToString(d.year);
    s
  }

  /** A four-digit number prints with four characters. */
  lemma NatToStringLength4(n: nat)
    requires 1000 <= n <= 9999
    ensures |NatToString(n)| == 4
  {
    assert NatToString(n) == NatToString(n / 10) + [DigitChar(n % 10)];
    assert NatToString(n / 10) == NatToString(n / 100) + [DigitChar((n / 10) % 10)];
    assert NatToString(n / 100) == NatToString(n / 1000) + [DigitChar((n / 100) % 10)];
  }

  /** `getLogFile()`: the day's file inside the log directory, named after the date. */
  function LogFilePath(directory: string, d: Date): (path: string)
    requires d.Valid()
    ensures |path| == |directory| + 15
    ensures path[..|directory| + 1] == directory + "/" && path[|path| - 4..] == ".log"
    ensures path[|directory| + 1..|path| - 4] == DateStamp(d)
  {
    var path := directory + "/" + DateStamp(d) + ".log";
    assert path[|directory| + 1..|path| - 4] == DateStamp(d);
    path
  }

  /** Each day is logged to a file of its own. */
  lemma LogFilePathInjective(directory: string, d1: Date, d2: Date)
    requires d1.Valid() && d2.Valid()
    requires LogFilePath(directory, d1) == LogFilePath(directory, d2)
    ensures d1 == d2
  {
    var path := LogFilePath(directory, d1);
    assert DateStamp(d1) == path[|directory| + 1..|path| - 4] == DateStamp(d2);
  }

  /** The text of a log line without its newline. */
  function Line(timestamp: string, level: string, className: string, message: string): string {
    "[" + timestamp + "] [" + level + "] [" + className + "]: " + message
  }

  /** The entry `log` appends: the line and a newline. */
  function Entry(timestamp: string, level: LogLevel, className: string, message: string): (e: string)
    ensures |e| > 0 && e[|e| - 1] == '\n'
    ensures e[..|e| - 1] == Line(timestamp, LevelName(level), className, message)
  {
    Line(timestamp, LevelName(level), className, message) + "\n"
  }

  class Logger {
    /** `DEBUG`: initialised from the configuration's logging switch. */
    var debug: bool
    const logDirectory: string
    /** The log files on disk: path to contents. */
    ghost var files: map<string, string>

    constructor(logging: bool, directory: string, disk: map<string, string>)
      ensures debug == logging && logDirectory == directory && files == disk
    {
      debug := logging;
      logDirectory := directory;
      files := disk;
    }

    /** The contents of `path`, or "" for a file that does not exist yet. */
    ghost function Contents(path: string): string
      reads this
    {
      if path in files then files[path] else ""
    }

    /**
     * `log(level, className, message)` at date `d` and time `t`: with logging
     * off nothing is written; otherwise exactly one entry is appended to the
     * day's file and every other file is left alone.
     */
    method Log(level: LogLevel, className: string, message: string, d: Date, t: TimeOfDay)
      requires d.Valid() && t.Valid()
      modifies this
      ensures debug == old(debug)
      ensures !debug ==> files == old(files)
      ensures debug ==> var path := LogFilePath(logDirectory, d);
        files == old(files)[path := old(Contents(path)) + Entry(Timestamp(t), level, className, message)]
    {
      if !debug {
        return;
      }
      var ts := Timestamp(t);
      var entry := Entry(ts, level, className, message);
      var path := LogFilePath(logDirectory, d);
      files := files[path := Contents(path) + entry];
    }
  }
}
