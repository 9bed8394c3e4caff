/**
 * pkg/c-log/log..go: the writer behind Go's standard logger. It drops
 * messages below the configured level, writes to stderr when no log file
 * is configured or open, and otherwise to the current day's file, named
 * after the configured path and the date.
 */
module CLogs {
  import opened Wrappers
  import opened Text

  /** `LogLevel` is a uint8. */
  type LogLevel = Byte

  const LogLevelNone: LogLevel := 0
  const LogLevelInfo: LogLevel := 1
  const LogLevelErr: LogLevel := 2

  /** The bytes of "[E]". */
  const ErrPrefix: seq<Byte> := [91, 69, 93]

  /** `bytes.Contains(p, sub)`. */
  predicate ContainsBytes(p: seq<Byte>, sub: seq<Byte>)
  {
    exists i :: 0 <= i <= |p| - |sub| && p[i..][..|sub|] == sub
  }

  /**
   * `filterLevelLog`: at the error level only messages containing "[E]"
   * pass, at the none and info levels everything passes, and any higher
   * level drops everything. A dropped message is nil.
   */
  function FilterLevelLog(level: LogLevel, p: seq<Byte>): (r: seq<Byte>)
    ensures r == p || r == []
    ensures level <= LogLevelInfo ==> r == p
    ensures level == LogLevelErr ==> (r != [] <==> p != [] && ContainsBytes(p, ErrPrefix))
    ensures level > LogLevelErr ==> r == []
  {
    if level == LogLevelErr && ContainsBytes(p, ErrPrefix) then p
    else if level <= LogLevelInfo then p
    else []
  }

  /** Filtering what already passed the filter changes nothing. */
  lemma FilterIdempotent(level: LogLevel, p: seq<Byte>)
    ensures FilterLevelLog(level, FilterLevelLog(level, p)) == FilterLevelLog(level, p)
  {
  }

  /** The date in Go's "2006-01-02" layout: a year of at least four digits, a two-digit month and day. */
  function DateString(year: nat, month: nat, day: nat): string
  {
    PadDigits(year, 4) + "-" + PadDigits(month, 2) + "-" + PadDigits(day, 2)
  }

  /** The day's file: the configured path, a dot and the date. */
  function DatedPath(path: string, year: nat, month: nat, day: nat): string
  {
    path + "." + DateString(year, month, day)
  }

  /** For a four-digit year and a calendar month and day, the file name is ten characters longer and reads back as the date. */
  lemma DatedPathReadsBack(path: string, year: nat, month: nat, day: nat)
    requires year < 10000 && 1 <= month <= 12 && 1 <= day <= 31
    ensures var f := DatedPath(path, year, month, day); var n := |path| + 1;
      |f| == n + 10 && f[..n] == path + "." && f[n + 4] == '-' && f[n + 7] == '-' &&
      AllDigits(f[n..n + 4]) && DigitsValue(f[n..n + 4]) == year &&
      AllDigits(f[n + 5..n + 7]) && DigitsValue(f[n + 5..n + 7]) == month &&
      AllDigits(f[n + 8..]) && DigitsValue(f[n + 8..]) == day
  {
    NatStringLength(year, 4);
    NatStringLength(month, 2);
    NatStringLength(day, 2);
    PadDigitsValue(year, 4);
    PadDigitsValue(month, 2);
    PadDigitsValue(day, 2);
    var f := DatedPath(path, year, month, day);
    var n := |path| + 1;
    assert f == (path + ".") + PadDigits(year, 4) + "-" + PadDigits(month, 2) + "-" + PadDigits(day, 2);
    assert f[n..n + 4] == PadDigits(year, 4);
    assert f[n + 5..n + 7] == PadDigits(month, 2);
    assert f[n + 8..] == PadDigits(day, 2);
  }

  /** An output the logger writes to: what it received and whether it was closed. */
  class Writer {
    var data: seq<seq<Byte>>
    var closed: bool

    constructor ()
      ensures data == [] && !closed
    {
      data := [];
      closed := false;
    }

    method Write(p: seq<Byte>)
      modifies this
      ensures data == old(data) + [p] && closed == old(closed)
    {
      data := data + [p];
    }

    method Close()
      modifies this
      ensures closed && data == old(data)
    {
      closed := true;
    }
  }

  class CLog {
    const flag: int
    const path: string
    const level: LogLevel
    var w: Writer?
    var stderr: seq<seq<Byte>>
    var closed: bool
    var closeChClosed: bool
    var rotating: bool

    /**
     * `CLogInit`: the logger with these options, not closed, no writer
     * yet; rotation starts only when a path is set. CLogInit's clamp of a
     * level below LogLevelNone is absent: the level is a uint8 and
     * LogLevelNone is 0, so that branch can never be taken.
     */
    constructor (flag: int, path: string, level: LogLevel)
      ensures this.flag == flag && this.path == path && this.level == level
      ensures w == null && stderr == [] && !closed && !closeChClosed && rotating == (path != "")
    {
      this.flag := flag;
      this.path := path;
      this.level := level;
      w := null;
      stderr := [];
      closed := false;
      closeChClosed := false;
      rotating := path != "";
    }

    /** Whether CLogInit hands back a closer: only when a path is set. */
    function HasCloser(): (r: bool)
    {
      path != ""
    }

    /** The closer CLogInit returns when a path is set: only the first call closes the channel; every call returns nil. */
    method CloseLog() returns (err: Error)
      requires HasCloser()
      modifies this
      ensures err == None && closed && closeChClosed == (old(closeChClosed) || !old(closed))
      ensures w == old(w) && stderr == old(stderr) && rotating == old(rotating)
    {
      if closed {
        return None;
      }
      closeChClosed := true;
      closed := true;
      return None;
    }

    /** `setOutput`: the new writer replaces the old one, which is closed. */
    method SetOutput(nw: Writer)
      modifies this, w
      ensures w == nw && stderr == old(stderr) && closed == old(closed) && closeChClosed == old(closeChClosed)
      ensures rotating == old(rotating)
      ensures old(w) != null ==> old(w).closed && old(w).data == old(w.data)
    {
      var oldWriter := w;
      w := nw;
      if oldWriter != null {
        oldWriter.Close();
      }
    }

    /**
     * `separateFile`: the day's file becomes the output; returns its name.
     * Opening it, replacing the symlink and their failures are left out.
     */
    method SeparateFile(year: nat, month: nat, day: nat, file: Writer) returns (name: string)
      modifies this, w
      ensures name == DatedPath(path, year, month, day) && w == file
      ensures stderr == old(stderr) && closed == old(closed) && closeChClosed == old(closeChClosed)
      ensures rotating == old(rotating)
      ensures old(w) != null ==> old(w).closed && old(w).data == old(w.data)
    {
      name := path + "." + DateString(year, month, day);
      SetOutput(file);
    }

    /**
     * `Write`: a dropped or empty message writes nothing and returns
     * (0, nil); otherwise it goes to stderr without a path or a writer, or
     * to the writer, and the result of that write is returned.
     */
    method Write(p: seq<Byte>, result: (nat, Error)) returns (n: nat, err: Error)
      modifies this, w
      ensures w == old(w) && closed == old(closed) && closeChClosed == old(closeChClosed)
      ensures rotating == old(rotating) && (w != null ==> w.closed == old(w.closed))
      ensures var q := FilterLevelLog(level, p);
        (q == [] ==> n == 0 && err == None && stderr == old(stderr) && (w != null ==> w.data == old(w.data))) &&
        (q != [] ==> (n, err) == result) &&
        (q != [] && (path == "" || w == null) ==> stderr == old(stderr) + [p] && (w != null ==> w.data == old(w.data))) &&
        (q != [] && path != "" && w != null ==> w.data == old(w.data) + [p] && stderr == old(stderr))
    {
      var q := FilterLevelLog(level, p);
      if |q| <= 0 {
        return 0, None;
      }
      if path == "" {
        stderr := stderr + [q];
        return result.0, result.1;
      }
      if w == null {
        stderr := stderr + [q];
        return result.0, result.1;
      }
      w.Write(q);
      return result.0, result.1;
    }
  }
}
