/**
 * The frontend's debug logger: a buffer of log lines that is written to a
 * text file every ten appends, keeping only the newest hundred lines, and
 * offered for download once the file exceeds one kilobyte.
 *
 * The clock and the JSON rendering of attached data are inputs: a method
 * that appends takes the timestamp it would read, and attached data as the
 * text `JSON.stringify` produced. The file is modelled by its contents and
 * each download by the contents handed to the browser.
 */
module Logging {
  import opened Wrappers

  /** Lines kept when the buffer is saved. */
  const MaxEntries: nat := 100
  /** A save is triggered whenever the buffer length reaches a multiple of this. */
  const BatchSize: nat := 10
  /** A saved file larger than this many bytes is downloaded. */
  const DownloadThreshold: nat := 1024

  /** The longest buffer any sequence of calls can leave. */
  const MaxBuffer: nat := MaxEntries + BatchSize - 1

  /** One buffer line: `<timestamp> - <message>`. */
  function Entry(timestamp: string, message: string): string {
    timestamp + " - " + message
  }

  /** ` - <data>` when data is attached, nothing otherwise. */
  function Detail(data: Option<string>): string {
    if data.Some? then " - " + data.value else ""
  }

  predicate StartsWith(s: string, prefix: string) {
    |prefix| <= |s| && s[..|prefix|] == prefix
  }

  /** `s.includes(sub)`. */
  predicate Contains(s: string, sub: string) {
    StartsWith(s, sub) || (s != [] && Contains(s[1..], sub))
  }

  /** `info` and `debug` record a message only when it mentions training or an error. */
  predicate Significant(message: string) {
    Contains(message, "Training") || Contains(message, "Error")
  }

  /** The newest `MaxEntries` lines, in their order. */
  function Trimmed(ls: seq<string>): (r: seq<string>)
    ensures |ls| <= MaxEntries ==> r == ls
    ensures |ls| > MaxEntries ==> |r| == MaxEntries
    ensures r == ls[|ls| - |r|..]
  {
    if |ls| > MaxEntries then ls[|ls| - MaxEntries..] else ls
  }

  /** `lines.join('\n')`. */
  function JoinLines(ls: seq<string>): string {
    if ls == [] then []
    else if |ls| == 1 then ls[0]
    else ls[0] + "\n" + JoinLines(ls[1..])
  }

  /** Bytes one character takes in UTF-8. */
  function Utf8Width(c: char): nat {
    if c as int < 0x80 then 1 else if c as int < 0x800 then 2 else if c as int < 0x10000 then 3 else 4
  }

  /** The size of a text blob: its UTF-8 length in bytes. */
  function Utf8Size(s: string): (n: nat)
    ensures |s| <= n <= 4 * |s|
  {
    if s == [] then 0 else Utf8Width(s[0]) + Utf8Size(s[1..])
  }

  /** What the logger holds: its buffer, its file and the downloads offered so far. */
  datatype LogState = LogState(logs: seq<string>, logFile: string, downloads: seq<string>)

  /**
   * The state after `saveLogsToFile()`: an empty buffer changes nothing;
   * otherwise the newest lines are kept and written one per line, and the
   * file is downloaded when larger than the threshold.
   */
  function Saved(st: LogState): (r: LogState)
    ensures st.logs == [] ==> r == st
    ensures |r.logs| <= MaxEntries || st.logs == []
    ensures |r.logs| <= |st.logs| && r.logs == st.logs[|st.logs| - |r.logs|..]
    ensures st.downloads <= r.downloads && |r.downloads| <= |st.downloads| + 1
  {
    if st.logs == [] then st
    else
      var kept := Trimmed(st.logs);
      var file := JoinLines(kept);
      LogState(kept, file, st.downloads + (if Utf8Size(file) > DownloadThreshold then [file] else []))
  }

  /** The state after a line is pushed, saved when the buffer length becomes a multiple of `BatchSize`. */
  function Pushed(st: LogState, line: string): (r: LogState)
    ensures 1 <= |r.logs| <= |st.logs| + 1
    ensures (|st.logs| + 1) % BatchSize == 0 ==> |r.logs| <= MaxEntries
    ensures st.downloads <= r.downloads
  {
    var grown := st.(logs := st.logs + [line]);
    if |grown.logs| % BatchSize == 0 then Saved(grown) else grown
  }

  /** The state after each of `lines` is pushed in turn. */
  function PushedAll(st: LogState, lines: seq<string>): LogState
    decreases |lines|
  {
    if lines == [] then st else PushedAll(Pushed(st, lines[0]), lines[1..])
  }

  class Logger {
    /** The buffered lines, oldest first. */
    var logs: seq<string>
    /** Contents of the last file written. */
    var logFile: string
    /** Contents of every file offered for download, in order. */
    var downloads: seq<string>

    function State(): LogState
      reads this
    {
      LogState(logs, logFile, downloads)
    }

    /** Every reachable buffer holds at most `MaxBuffer` lines. */
    ghost predicate Valid()
      reads this
    {
      |logs| <= MaxBuffer
    }

    constructor ()
      ensures Valid()
      ensures State() == LogState([], [], [])
    {
      logs := [];
      logFile := [];
      downloads := [];
    }

    /**
     * `saveLogsToFile()`. It needs no `Valid()`: `appendToFile` calls it on a
     * buffer one line past the bound, and it always leaves a valid one.
     */
    method SaveLogsToFile()
      modifies this
      ensures Valid()
      ensures State() == Saved(old(State()))
      ensures old(logs) != [] ==> |logs| <= MaxEntries
    {
      if |logs| == 0 {
        return;
      }
      if |logs| > MaxEntries {
        logs := logs[|logs| - MaxEntries..];
      }
      logFile := JoinLines(logs);
      if Utf8Size(logFile) > DownloadThreshold {
        downloads := downloads + [logFile];
      }
    }

    /** `appendToFile(message)` at time `timestamp`: push the line, save on every tenth. */
    method AppendToFile(timestamp: string, message: string)
      requires Valid()
      modifies this
      ensures Valid()
      ensures State() == Pushed(old(State()), Entry(timestamp, message))
    {
      logs := logs + [Entry(timestamp, message)];
      if |logs| % BatchSize == 0 {
        SaveLogsToFile();
      }
    }

    /** `info(message, data)`: recorded only when significant. */
    method Info(timestamp: string, message: string, data: Option<string>)
      requires Valid()
      modifies this
      ensures Valid()
      ensures State() == if Significant(message)
        then Pushed(old(State()), Entry(timestamp, "INFO: " + message + Detail(data)))
        else old(State())
    {
      if Contains(message, "Training") || Contains(message, "Error") {
        var line := if data.Some? then "INFO: " + message + " - " + data.value else "INFO: " + message;
        assert line == "INFO: " + message + Detail(data);
        AppendToFile(timestamp, line);
      }
    }

    /** `error(message, error)`: always recorded. */
    method Error(timestamp: string, message: string, error: Option<string>)
      requires Valid()
      modifies this
      ensures Valid()
      ensures State() == Pushed(old(State()), Entry(timestamp, "ERROR: " + message + Detail(error)))
    {
      var line := if error.Some? then "ERROR: " + message + " - " + error.value else "ERROR: " + message;
      assert line == "ERROR: " + message + Detail(error);
      AppendToFile(timestamp, line);
    }

    /** `debug(message, data)`: recorded only when significant. */
    method Debug(timestamp: string, message: string, data: Option<string>)
      requires Valid()
      modifies this
      ensures Valid()
      ensures State() == if Significant(message)
        then Pushed(old(State()), Entry(timestamp, "DEBUG: " + message + Detail(data)))
        else old(State())
    {
      if Contains(message, "Training") || Contains(message, "Error") {
        var line := if data.Some? then "DEBUG: " + message + " - " + data.value else "DEBUG: " + message;
        assert line == "DEBUG: " + message + Detail(data);
        AppendToFile(timestamp, line);
      }
    }

    /** `saveLogs()`, also run when the page unloads. */
    method SaveLogs()
      requires Valid()
      modifies this
      ensures Valid()
      ensures State() == Saved(old(State()))
    {
      SaveLogsToFile();
    }
  }

  // ---------------------------------------------------------------------
  // Properties of the buffer
  // ---------------------------------------------------------------------

  /** An append keeps the buffer within `MaxBuffer` lines. */
  lemma PushKeepsBound(st: LogState, line: string)
    requires |st.logs| <= MaxBuffer
    ensures |Pushed(st, line).logs| <= MaxBuffer
  {
  }

  /**
   * The new line is the last one, and the buffer is the old one plus that
   * line with at most some of the oldest lines dropped: nothing is reordered.
   */
  lemma PushIsSuffix(st: LogState, line: string)
    ensures var r := Pushed(st, line).logs;
      r != [] && r[|r| - 1] == line && r == (st.logs + [line])[|st.logs| + 1 - |r|..]
  {
  }

  /**
   * A push saves exactly when the new length is a multiple of `BatchSize`;
   * otherwise the file and the downloads stay as they were. Lines are
   * dropped only by a save of more than `MaxEntries` lines.
   */
  lemma PushSavesOnBatch(st: LogState, line: string)
    ensures (|st.logs| + 1) % BatchSize == 0 ==> Pushed(st, line) == Saved(st.(logs := st.logs + [line]))
    ensures (|st.logs| + 1) % BatchSize != 0 ==> Pushed(st, line) == st.(logs := st.logs + [line])
    ensures (|st.logs| + 1) % BatchSize != 0 || |st.logs| + 1 <= MaxEntries ==> Pushed(st, line).logs == st.logs + [line]
  {
    var grown := st.(logs := st.logs + [line]);
    if (|st.logs| + 1) % BatchSize == 0 {
      assert Pushed(st, line) == Saved(grown);
      if |grown.logs| <= MaxEntries {
        assert Saved(grown).logs == Trimmed(grown.logs) == grown.logs;
      }
    } else {
      assert Pushed(st, line) == grown;
    }
  }

  /** `MaxBuffer` is reached: 108 lines plus one more are not saved. */
  lemma BoundIsReached(st: LogState, line: string)
    requires |st.logs| == MaxBuffer - 1
    ensures |Pushed(st, line).logs| == MaxBuffer
  {
  }

  /**
   * A save keeps the newest lines, at most `MaxEntries` of them, in order,
   * writes them to the file, and downloads exactly that file when it is
   * large; saving again changes neither buffer nor file.
   */
  lemma SaveKeepsNewest(st: LogState)
    requires st.logs != []
    ensures var r := Saved(st);
      |r.logs| == if |st.logs| > MaxEntries then MaxEntries else |st.logs|
    ensures var r := Saved(st);
      r.logs == st.logs[|st.logs| - |r.logs|..] && r.logFile == JoinLines(r.logs)
    ensures var r := Saved(st);
      r.downloads == st.downloads || r.downloads == st.downloads + [r.logFile]
    ensures Saved(Saved(st)).logs == Saved(st).logs && Saved(Saved(st)).logFile == Saved(st).logFile
  {
  }

  /** From any state within the bound, a sequence of appends stays within it. */
  lemma {:induction false} PushesStayBounded(st: LogState, lines: seq<string>)
    requires |st.logs| <= MaxBuffer
    ensures |PushedAll(st, lines).logs| <= MaxBuffer
    decreases |lines|
  {
    if lines != [] {
      PushKeepsBound(st, lines[0]);
      PushesStayBounded(Pushed(st, lines[0]), lines[1..]);
    }
  }

  /** `sub` occurs in `s` starting at position `i`. */
  predicate OccursAt(s: string, sub: string, i: int) {
    0 <= i <= |s| - |sub| && s[i..i + |sub|] == sub
  }

  /** `Contains` is `includes`: `sub` occurs at some position of `s`. */
  lemma {:induction false} ContainsIff(s: string, sub: string)
    ensures Contains(s, sub) <==> exists i :: OccursAt(s, sub, i)
  {
    assert StartsWith(s, sub) <==> OccursAt(s, sub, 0);
    if s != [] {
      ContainsIff(s[1..], sub);
      forall i | 0 <= i
        ensures OccursAt(s[1..], sub, i) <==> OccursAt(s, sub, i + 1)
      {
        if 0 <= i <= |s| - 1 - |sub| {
          assert s[1..][i..i + |sub|] == s[i + 1..i + 1 + |sub|];
        }
      }
      if exists i :: OccursAt(s, sub, i) {
        var i :| OccursAt(s, sub, i);
        if i > 0 {
          assert OccursAt(s[1..], sub, i - 1);
        }
      }
    }
  }
}
