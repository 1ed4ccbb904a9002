/**
  The decision logic of utils/utils.py around supervised subprocesses: the
  bounded free-port retry, which exits are logged and reported, the program
  name and timestamped log path of a process, and the section layout of the
  log written when a process crashes or fails to start.
 */
module Supervisor {
  import opened Wrappers
  import opened Strings
  import Paths

  // ------------------------------------------------------------- free port

  /** How many times `get_free_port` asks for a port before giving up. */
  const PortAttempts: nat := 6

  const PortFailure: string := "Unable to allocate port"

  /** A port, or the `RuntimeError` raised when none was found. */
  datatype Allocation = Allocated(port: nat) | Unable(message: string)

  /** Index of the first non-zero answer, or `|answers|` when all are zero. */
  function FirstNonZero(answers: seq<nat>): (i: nat)
    ensures i <= |answers|
    ensures i < |answers| ==> answers[i] != 0
    ensures forall k :: 0 <= k < i ==> answers[k] == 0
  {
    if answers == [] then 0
    else if answers[0] != 0 then 0
    else 1 + FirstNonZero(answers[1..])
  }

  /**
    What `get_free_port` gives when the successive calls of
    `_find_next_free_port` answer `answers`: the first non-zero answer among
    the first six, else the failure.
   */
  function FreePort(answers: seq<nat>): (r: Allocation)
    requires |answers| >= PortAttempts
    ensures r.Allocated? <==> exists k :: 0 <= k < PortAttempts && answers[k] != 0
    ensures r.Allocated? ==> r.port != 0 && r.port in answers[..PortAttempts]
    ensures r.Unable? ==> r.message == PortFailure
  {
    var i := FirstNonZero(answers[..PortAttempts]);
    if i < PortAttempts then
      assert answers[..PortAttempts][i] == answers[i];
      Allocated(answers[i])
    else Unable(PortFailure)
  }

  /**
    `get_free_port`: asks the oracle at most six times and stops at the first
    non-zero port; `calls` is how many answers it consumed.
   */
  method GetFreePort(answers: seq<nat>) returns (r: Allocation, calls: nat)
    requires |answers| >= PortAttempts
    ensures 1 <= calls <= PortAttempts
    ensures r == FreePort(answers)
    ensures r.Allocated? ==> r.port == answers[calls - 1] && forall k :: 0 <= k < calls - 1 ==> answers[k] == 0
    ensures r.Unable? ==> calls == PortAttempts
  {
    calls := 0;
    while calls < PortAttempts
      invariant calls <= PortAttempts
      invariant forall k :: 0 <= k < calls ==> answers[k] == 0
    {
      var p := answers[calls];
      calls := calls + 1;
      if p != 0 {
        assert FirstNonZero(answers[..PortAttempts]) == calls - 1 by {
          assert answers[..PortAttempts][calls - 1] == p;
          assert forall k :: 0 <= k < calls - 1 ==> answers[..PortAttempts][k] == 0;
        }
        return Allocated(p), calls;
      }
    }
    assert forall k :: 0 <= k < PortAttempts ==> answers[..PortAttempts][k] == 0;
    return Unable(PortFailure), calls;
  }

  // ------------------------------------------------------------ exit codes

  /** `IGNORED_CODES`: exits that are not crashes (0, SIGTERM, 1, a Windows console-close status). */
  const IgnoredCodes: set<int> := {0, -15, 1, 3221225786}

  /** What the watcher thread does when a started process finishes. */
  datatype ExitHandling = ExitHandling(writeLog: bool, report: bool)

  /**
    In debug mode the process owns its console: any non-zero exit is
    reported and nothing is logged. Otherwise an exit outside
    `IgnoredCodes` is logged and reported, any other exit is silent.
   */
  function OnExit(debug: bool, code: int): (h: ExitHandling)
    ensures debug ==> !h.writeLog && (h.report <==> code != 0)
    ensures !debug ==> (h.writeLog <==> code !in IgnoredCodes) && (h.report <==> h.writeLog)
  {
    if debug then ExitHandling(false, code != 0)
    else ExitHandling(code !in IgnoredCodes, code !in IgnoredCodes)
  }

  /** Every exit reported without debug mode is reported with it too; the difference is exactly -15, 1 and 3221225786. */
  lemma DebugReportsMore(code: int)
    ensures OnExit(false, code).report ==> OnExit(true, code).report
    ensures (OnExit(true, code).report && !OnExit(false, code).report) <==> code == -15 || code == 1 || code == 3221225786
  {
  }

  // ---------------------------------------------------------- program name

  /** The `cmd` given to `start_subprocess`: an argument list or a single string. */
  datatype Command = Argv(args: seq<string>) | Text(text: string)

  /** `repr` of a string, for strings without quotes, backslashes or control characters. */
  function Repr(s: string): string {
    "'" + s + "'"
  }

  function ReprItems(args: seq<string>): string {
    if args == [] then ""
    else if |args| == 1 then Repr(args[0])
    else Repr(args[0]) + ", " + ReprItems(args[1..])
  }

  /** `str(cmd)`: the text written under "# Command". */
  function Str(cmd: Command): (s: string)
    ensures cmd.Text? ==> s == cmd.text
    ensures cmd.Argv? ==> |s| >= 2 && s[0] == '[' && s[|s| - 1] == ']'
  {
    match cmd
    case Text(t) => t
    case Argv(args) => "[" + ReprItems(args) + "]"
  }

  /** `_basename`: the file name without its directory and final extension, or "subprocess" when that is empty. */
  function BaseName(prog: string): (name: string)
    ensures name != [] && Paths.Sep !in name
    ensures Paths.Basename(prog) == [] ==> name == "subprocess"
    ensures var file := Paths.Basename(prog);
            file != [] ==> StartsWith(file, name)
                           && (name != file <==> Paths.HasExtension(file))
                           && (name != file ==> file[|name|] == '.' && '.' !in file[|name| + 1..])
  {
    StemOrFallback(Paths.Basename(prog))
  }

  /** The stem of a file name that holds no separator, or "subprocess" when the stem is empty. */
  function StemOrFallback(file: string): (name: string)
    requires Paths.Sep !in file
    ensures name != [] && Paths.Sep !in name
    ensures file == [] ==> name == "subprocess"
    ensures file != [] ==> StartsWith(file, name)
                           && (name != file <==> Paths.HasExtension(file))
                           && (name != file ==> file[|name|] == '.' && '.' !in file[|name| + 1..])
  {
    var stem := Paths.Stem(file);
    if stem == [] then
      assert file == [];
      FallbackName();
      "subprocess"
    else
      PrefixKeepsOut(file, stem, Paths.Sep);
      stem
  }

  lemma FallbackName()
    ensures "subprocess" != [] && Paths.Sep !in "subprocess"
  {
  }

  /** The program name of a command: `cmd[0]` of a non-empty argument list, else the text of the command. */
  function ProgramName(cmd: Command): (name: string)
    ensures name != [] && Paths.Sep !in name
    ensures cmd.Argv? && cmd.args != [] ==> name == BaseName(cmd.args[0])
    ensures !(cmd.Argv? && cmd.args != []) ==> name == BaseName(Str(cmd))
  {
    if cmd.Argv? && cmd.args != [] then BaseName(cmd.args[0]) else BaseName(Str(cmd))
  }

  /** A program file inside a directory is named by its file name without the extension. */
  lemma BaseNameOfProgramFile(dir: string, stem: string, ext: string)
    requires stem != [] && Paths.Sep !in stem && '.' !in stem
    requires Paths.Sep !in ext && '.' !in ext
    ensures BaseName(Paths.Join(dir, stem + "." + ext)) == stem
  {
    var file := stem + "." + ext;
    assert Paths.Sep !in file by { assert file == stem + ['.'] + ext; }
    Paths.BasenameOfJoin(dir, file);
    assert !Paths.AllDots(stem) by { assert stem[0] in stem; }
    Paths.StemDropsExtension(stem, ext);
  }

  /** A program path ending in a separator has no file name, so its program is "subprocess". */
  lemma BaseNameOfDirectory(dir: string)
    ensures BaseName(dir + [Paths.Sep]) == "subprocess"
  {
    var p := dir + [Paths.Sep];
    assert Strings.LastIndexOf(p, Paths.Sep) == |p| - 1;
  }

  // ------------------------------------------------------------- timestamp

  /** A local date and time to the minute, within Python's `datetime` range. */
  datatype DateTime = DateTime(year: nat, month: nat, day: nat, hour: nat, minute: nat) {
    predicate Valid() {
      1 <= year <= 9999 && 1 <= month <= 12 && 1 <= day <= 31 && hour < 24 && minute < 60
    }
  }

  function Pow10(w: nat): (p: nat)
    ensures p >= 1
  {
    if w == 0 then 1 else 10 * Pow10(w - 1)
  }

  /** A number below 10^w has at most w digits. */
  lemma {:induction false} NumeralWidth(n: nat, w: nat)
    requires w >= 1 && n < Pow10(w)
    ensures |NatToString(n)| <= w
    decreases n
  {
    if n >= 10 {
      assert Pow10(w) == 10 * Pow10(w - 1);
      assert n / 10 < Pow10(w - 1);
      assert w - 1 >= 1;
      NumeralWidth(n / 10, w - 1);
    }
  }

  /** One zero-padded `strftime` field of width `w`. */
  function Field(n: nat, w: nat): (s: string)
    requires w >= 1 && n < Pow10(w)
    ensures |s| == w && AllDigits(s) && DecimalValue(s) == n
  {
    var digits := NatToString(n);
    NumeralWidth(n, w);
    DecimalRoundTrip(n);
    DecimalLeadingZeros(w - |digits|, digits);
    assert PadLeft(digits, w, '0') == seq(w - |digits|, _ => '0') + digits;
    PadLeft(digits, w, '0')
  }

  lemma ValidFields(t: DateTime)
    requires t.Valid()
    ensures t.year < Pow10(4) && t.month < Pow10(2) && t.day < Pow10(2) && t.hour < Pow10(2) && t.minute < Pow10(2)
  {
    assert Pow10(2) == 100 && Pow10(4) == 10000;
  }

  /** Five fields joined by '-': each field sits at its fixed offset. */
  lemma StampLayout(y: string, mo: string, d: string, h: string, mi: string)
    requires |y| == 4 && |mo| == 2 && |d| == 2 && |h| == 2 && |mi| == 2
    ensures var s := y + "-" + mo + "-" + d + "-" + h + "-" + mi;
            |s| == 16 && s[4] == '-' && s[7] == '-' && s[10] == '-' && s[13] == '-'
            && s[..4] == y && s[5..7] == mo && s[8..10] == d && s[11..13] == h && s[14..16] == mi
  {
  }

  /** `_timestamp`: `%Y-%m-%d-%H-%M`. */
  function Timestamp(t: DateTime): (s: string)
    requires t.Valid()
    ensures |s| == 16 && s[4] == '-' && s[7] == '-' && s[10] == '-' && s[13] == '-'
  {
    ValidFields(t);
    var y, mo, d, h, mi := Field(t.year, 4), Field(t.month, 2), Field(t.day, 2), Field(t.hour, 2), Field(t.minute, 2);
    StampLayout(y, mo, d, h, mi);
    y + "-" + mo + "-" + d + "-" + h + "-" + mi
  }

  /** The fields of a `%Y-%m-%d-%H-%M` string, read back as numbers. */
  predicate StampShape(s: string) {
    |s| == 16 && AllDigits(s[..4]) && AllDigits(s[5..7]) && AllDigits(s[8..10])
    && AllDigits(s[11..13]) && AllDigits(s[14..16])
  }

  function ReadStamp(s: string): DateTime
    requires StampShape(s)
  {
    DateTime(DecimalValue(s[..4]), DecimalValue(s[5..7]), DecimalValue(s[8..10]),
             DecimalValue(s[11..13]), DecimalValue(s[14..16]))
  }

  /** Reading a timestamp back gives the date and time it was made from. */
  lemma TimestampRoundTrip(t: DateTime)
    requires t.Valid()
    ensures StampShape(Timestamp(t)) && ReadStamp(Timestamp(t)) == t
  {
    ValidFields(t);
    StampLayout(Field(t.year, 4), Field(t.month, 2), Field(t.day, 2), Field(t.hour, 2), Field(t.minute, 2));
  }

  /** Timestamps of different minutes differ, so logs of different minutes never collide. */
  lemma TimestampInjective(t: DateTime, u: DateTime)
    requires t.Valid() && u.Valid() && Timestamp(t) == Timestamp(u)
    ensures t == u
  {
    TimestampRoundTrip(t);
    TimestampRoundTrip(u);
  }

  // -------------------------------------------------------------- log path

  /** `f"{_timestamp()}-{_program}.log"` */
  function LogName(t: DateTime, program: string): (name: string)
    requires t.Valid()
    ensures |name| == 16 + 1 + |program| + 4
  {
    Timestamp(t) + "-" + program + ".log"
  }

  /** `os.path.join(log_dir, ...)` of the log name. */
  function LogPath(logDir: string, t: DateTime, program: string): (path: string)
    requires t.Valid()
    ensures path == logDir + LogName(t, program) || path == logDir + [Paths.Sep] + LogName(t, program)
  {
    var name := LogName(t, program);
    StampHead(t);
    NotRooted(Timestamp(t), "-", program, ".log");
    Paths.Join(logDir, name)
  }

  /** A timestamp starts with a digit of the year, never with a separator. */
  lemma StampHead(t: DateTime)
    requires t.Valid()
    ensures Timestamp(t)[0] != Paths.Sep
  {
    TimestampRoundTrip(t);
    assert Timestamp(t)[..4][0] == Timestamp(t)[0];
  }

  lemma NotRooted(s: string, a: string, b: string, c: string)
    requires s != [] && s[0] != Paths.Sep
    ensures !StartsWith(s + a + b + c, [Paths.Sep])
  {
    assert (s + a + b + c)[0] == s[0];
  }

  lemma NameSlices(stamp: string, program: string, ext: string)
    requires |stamp| == 16 && |ext| == 4
    ensures var name := stamp + "-" + program + ext;
            name[..16] == stamp && name[16] == '-' && name[17..|name| - 4] == program && name[|name| - 4..] == ext
  {
  }

  lemma LogNameParts(t: DateTime, program: string)
    requires t.Valid()
    ensures var name := LogName(t, program);
            name[..16] == Timestamp(t) && name[16] == '-' && name[17..|name| - 4] == program
            && name[|name| - 4..] == ".log"
  {
    NameSlices(Timestamp(t), program, ".log");
  }

  /**
    The file name of a log path names the minute and the program: the first
    sixteen characters read back as the timestamp, the text between the
    following '-' and ".log" is the program name.
   */
  lemma LogPathNamesRun(logDir: string, t: DateTime, program: string)
    requires t.Valid() && program != [] && Paths.Sep !in program
    ensures var file := Paths.Basename(LogPath(logDir, t, program));
            |file| == 21 + |program| && StampShape(file[..16]) && ReadStamp(file[..16]) == t
            && file[17..|file| - 4] == program && file[|file| - 4..] == ".log"
  {
    var name := LogName(t, program);
    LogNameHasNoSep(t, program);
    Paths.BasenameOfJoin(logDir, name);
    LogNameParts(t, program);
    TimestampRoundTrip(t);
  }

  lemma StampHasNoSep(t: DateTime)
    requires t.Valid()
    ensures Paths.Sep !in Timestamp(t)
  {
    TimestampRoundTrip(t);
    ShapeHasNoSep(Timestamp(t));
  }

  /** A string of the timestamp's shape holds digits and dashes only. */
  lemma ShapeHasNoSep(s: string)
    requires StampShape(s) && s[4] == '-' && s[7] == '-' && s[10] == '-' && s[13] == '-'
    ensures Paths.Sep !in s
  {
    forall k | 0 <= k < 16 ensures s[k] != Paths.Sep {
      if k < 4 { assert IsDigit(s[..4][k]) && s[..4][k] == s[k]; }
      else if 4 < k < 7 { assert IsDigit(s[5..7][k - 5]) && s[5..7][k - 5] == s[k]; }
      else if 7 < k < 10 { assert IsDigit(s[8..10][k - 8]) && s[8..10][k - 8] == s[k]; }
      else if 10 < k < 13 { assert IsDigit(s[11..13][k - 11]) && s[11..13][k - 11] == s[k]; }
      else if 13 < k { assert IsDigit(s[14..16][k - 14]) && s[14..16][k - 14] == s[k]; }
    }
  }

  lemma LogNameHasNoSep(t: DateTime, program: string)
    requires t.Valid() && Paths.Sep !in program
    ensures Paths.Sep !in LogName(t, program)
  {
    StampHasNoSep(t);
    NoSepInName(Timestamp(t), program);
  }

  lemma NoSepInName(stamp: string, program: string)
    requires Paths.Sep !in stamp && Paths.Sep !in program
    ensures Paths.Sep !in stamp + "-" + program + ".log"
  {
    var name := stamp + "-" + program + ".log";
    forall k | 0 <= k < |name| ensures name[k] != Paths.Sep {
      if k < |stamp| { assert name[k] == stamp[k]; }
      else if k == |stamp| { assert name[k] == '-'; }
      else if k < |stamp| + 1 + |program| { assert name[k] == program[k - |stamp| - 1]; }
      else { assert name[k] == ".log"[k - |stamp| - 1 - |program|]; }
    }
  }

  // -------------------------------------------------------------- log file

  /** An open log file; `contents` is everything written to it so far. */
  class LogFile {
    var contents: string

    constructor ()
      ensures contents == []
    {
      contents := [];
    }

    /** `f.write(s)` */
    method Write(s: string)
      modifies this
      ensures contents == old(contents) + s
    {
      contents := contents + s;
    }
  }

  /** A "# <title>" header line followed by its body. */
  datatype Section = Section(title: string, body: string)

  function SectionText(section: Section): string {
    "# " + section.title + "\n" + section.body
  }

  /** Sections one after the other, separated by a blank line. */
  function Render(sections: seq<Section>): string {
    if sections == [] then ""
    else if |sections| == 1 then SectionText(sections[0])
    else SectionText(sections[0]) + "\n\n" + Render(sections[1..])
  }

  /** A rendered log of several sections is the first section, a blank line, then the others. */
  lemma RenderCons(first: Section, rest: seq<Section>)
    requires rest != []
    ensures Render([first] + rest) == SectionText(first) + "\n\n" + Render(rest)
  {
    assert ([first] + rest)[1..] == rest;
  }

  lemma RenderTwo(a: Section, b: Section)
    ensures Render([a, b]) == SectionText(a) + "\n\n" + SectionText(b)
  {
    RenderCons(a, [b]);
    assert [a] + [b] == [a, b];
  }

  lemma RenderFour(a: Section, b: Section, c: Section, d: Section)
    ensures Render([a, b, c, d])
         == SectionText(a) + "\n\n" + SectionText(b) + "\n\n" + SectionText(c) + "\n\n" + SectionText(d)
  {
    RenderTwo(c, d);
    RenderCons(b, [c, d]);
    assert [b] + [c, d] == [b, c, d];
    RenderCons(a, [b, c, d]);
    assert [a] + [b, c, d] == [a, b, c, d];
  }

  lemma CommandHeader(body: string)
    ensures SectionText(Section("Command", body)) == "# Command\n" + body
  {
  }

  lemma ExitCodeHeader(body: string)
    ensures SectionText(Section("Exit code", body)) == "# Exit code\n" + body
  {
  }

  lemma StdoutHeader(body: string)
    ensures SectionText(Section("STDOUT", body)) == "# STDOUT\n" + body
  {
  }

  lemma StderrHeader(body: string)
    ensures SectionText(Section("STDERR", body)) == "# STDERR\n" + body
      && "\n\n# STDERR\n" == "\n\n" + "# STDERR\n"
  {
  }

  lemma StartupHeader(body: string)
    ensures SectionText(Section("Startup failure", body)) == "# Startup failure\n" + body
  {
  }

  /** `out or ""` */
  function OrEmpty(text: Option<string>): (s: string)
    ensures text.None? ==> s == []
    ensures text.Some? ==> s == text.value
  {
    if text.Some? then text.value else ""
  }

  /** The sections of a crash log. */
  function CrashSections(cmd: Command, code: int, out: Option<string>, err: Option<string>): (sections: seq<Section>)
    ensures |sections| == 4
    ensures sections[0].title == "Command" && sections[1].title == "Exit code"
    ensures sections[2].title == "STDOUT" && sections[3].title == "STDERR"
  {
    [Section("Command", Str(cmd)), Section("Exit code", IntToString(code)),
     Section("STDOUT", OrEmpty(out)), Section("STDERR", OrEmpty(err))]
  }

  /** The sections of a start-up failure log. */
  function StartupSections(cmd: Command, error: string): (sections: seq<Section>)
    ensures |sections| == 2
    ensures sections[0].title == "Command" && sections[1].title == "Startup failure"
  {
    [Section("Command", Str(cmd)), Section("Startup failure", error)]
  }

  lemma CrashRegroup(a: string, b: string, c: string, d: string, e: string, f: string, g: string, h: string)
    ensures a + b + "\n\n" + (c + d) + "\n\n" + (e + f) + "\n\n" + (g + h)
         == (a + b + "\n\n") + (c + d + "\n\n") + e + f + ("\n\n" + g) + h
  {
  }

  /** The crash log as the six `f.write` calls produce it. */
  lemma CrashLogWrites(cmd: Command, code: int, out: Option<string>, err: Option<string>)
    ensures Render(CrashSections(cmd, code, out, err))
         == ("# Command\n" + Str(cmd) + "\n\n") + ("# Exit code\n" + IntToString(code) + "\n\n")
            + "# STDOUT\n" + OrEmpty(out) + "\n\n# STDERR\n" + OrEmpty(err)
  {
    var ss := CrashSections(cmd, code, out, err);
    RenderFour(ss[0], ss[1], ss[2], ss[3]);
    assert ss == [ss[0], ss[1], ss[2], ss[3]];
    CommandHeader(Str(cmd));
    ExitCodeHeader(IntToString(code));
    StdoutHeader(OrEmpty(out));
    StderrHeader(OrEmpty(err));
    CrashRegroup("# Command\n", Str(cmd), "# Exit code\n", IntToString(code),
                 "# STDOUT\n", OrEmpty(out), "# STDERR\n", OrEmpty(err));
  }

  /** The start-up failure log as the three `f.write` calls produce it. */
  lemma StartupLogWrites(cmd: Command, error: string)
    ensures Render(StartupSections(cmd, error))
         == ("# Command\n" + Str(cmd) + "\n\n") + "# Startup failure\n" + error
  {
    var ss := StartupSections(cmd, error);
    RenderTwo(ss[0], ss[1]);
    assert ss == [ss[0], ss[1]];
    CommandHeader(Str(cmd));
    StartupHeader(error);
  }

  lemma AppendSix(s: string, a: string, b: string, c: string, d: string, e: string, f: string)
    ensures s + a + b + c + d + e + f == s + (a + b + c + d + e + f)
  {
  }

  /** The writes of the crash branch of `_drain_and_maybe_log`. */
  method WriteCrashLog(f: LogFile, cmd: Command, code: int, out: Option<string>, err: Option<string>)
    modifies f
    ensures f.contents == old(f.contents) + Render(CrashSections(cmd, code, out, err))
  {
    ghost var before := f.contents;
    var command := "# Command\n" + Str(cmd) + "\n\n";
    var exitCode := "# Exit code\n" + IntToString(code) + "\n\n";
    f.Write(command);
    f.Write(exitCode);
    f.Write("# STDOUT\n");
    f.Write(OrEmpty(out));
    f.Write("\n\n# STDERR\n");
    f.Write(OrEmpty(err));
    CrashLogWrites(cmd, code, out, err);
    AppendSix(before, command, exitCode, "# STDOUT\n", OrEmpty(out), "\n\n# STDERR\n", OrEmpty(err));
  }

  /** The writes of the `except` branch of `start_subprocess`; `error` is `repr(e)`. */
  method WriteStartupLog(f: LogFile, cmd: Command, error: string)
    modifies f
    ensures f.contents == old(f.contents) + Render(StartupSections(cmd, error))
  {
    ghost var before := f.contents;
    var command := "# Command\n" + Str(cmd) + "\n\n";
    f.Write(command);
    f.Write("# Startup failure\n");
    f.Write(error);
    StartupLogWrites(cmd, error);
    AppendThree(before, command, "# Startup failure\n", error);
  }

  lemma AppendThree(s: string, a: string, b: string, c: string)
    ensures s + a + b + c == s + (a + b + c)
  {
  }

  /** Where each part of a four-section log starts, for headers of lengths 10, 12, 9 and 9. */
  lemma FourSectionOffsets(a: string, b: string, c: string, d: string, e: string, f: string, g: string, h: string)
    requires |a| == 10 && |c| == 12 && |e| == 9 && |g| == 9
    ensures var log := a + b + "\n\n" + (c + d) + "\n\n" + (e + f) + "\n\n" + (g + h);
            var atC := 10 + |b| + 2;
            var atE := atC + 12 + |d| + 2;
            var atG := atE + 9 + |f| + 2;
            && |log| == atG + 9 + |h|
            && log[..10] == a && log[10..atC - 2] == b
            && log[atC..atC + 12] == c && log[atC + 12..atE - 2] == d
            && log[atE..atE + 9] == e && log[atE + 9..atG - 2] == f
            && log[atG..atG + 9] == g && log[atG + 9..] == h
  {
  }

  /**
    Layout of a crash log: the command section, then the exit code section
    (whose body is the numeral `IntRoundTrip` reads back), then standard output and standard
    error, in that order; each body follows its header line, missing output
    is written as nothing.
   */
  lemma CrashLogLayout(cmd: Command, code: int, out: Option<string>, err: Option<string>)
    ensures var log := Render(CrashSections(cmd, code, out, err));
            var e := IntToString(code);
            var atCode := 10 + |Str(cmd)| + 2;
            var atOut := atCode + 12 + |e| + 2;
            var atErr := atOut + 9 + |OrEmpty(out)| + 2;
            && |log| == atErr + 9 + |OrEmpty(err)|
            && log[..10] == "# Command\n" && log[10..atCode - 2] == Str(cmd)
            && log[atCode..atCode + 12] == "# Exit code\n"
            && log[atCode + 12..atOut - 2] == e
            && log[atOut..atOut + 9] == "# STDOUT\n" && log[atOut + 9..atErr - 2] == OrEmpty(out)
            && log[atErr..atErr + 9] == "# STDERR\n" && log[atErr + 9..] == OrEmpty(err)
  {
    CrashBodies(Render(CrashSections(cmd, code, out, err)), Str(cmd), IntToString(code), OrEmpty(out), OrEmpty(err));
  }

  /** The crash log layout for any four section bodies. */
  lemma CrashBodies(log: string, c: string, e: string, o: string, r: string)
    requires log == Render([Section("Command", c), Section("Exit code", e), Section("STDOUT", o), Section("STDERR", r)])
    ensures var atCode := 10 + |c| + 2;
            var atOut := atCode + 12 + |e| + 2;
            var atErr := atOut + 9 + |o| + 2;
            && |log| == atErr + 9 + |r|
            && log[..10] == "# Command\n" && log[10..atCode - 2] == c
            && log[atCode..atCode + 12] == "# Exit code\n" && log[atCode + 12..atOut - 2] == e
            && log[atOut..atOut + 9] == "# STDOUT\n" && log[atOut + 9..atErr - 2] == o
            && log[atErr..atErr + 9] == "# STDERR\n" && log[atErr + 9..] == r
  {
    RenderFour(Section("Command", c), Section("Exit code", e), Section("STDOUT", o), Section("STDERR", r));
    CommandHeader(c);
    ExitCodeHeader(e);
    StdoutHeader(o);
    StderrHeader(r);
    FourSectionOffsets("# Command\n", c, "# Exit code\n", e, "# STDOUT\n", o, "# STDERR\n", r);
  }

  /** Layout of a start-up failure log: the command section, then the error text under its header. */
  lemma StartupLogLayout(cmd: Command, error: string)
    ensures var log := Render(StartupSections(cmd, error));
            var atError := 10 + |Str(cmd)| + 2;
            && |log| == atError + 18 + |error|
            && log[..10] == "# Command\n" && log[10..atError - 2] == Str(cmd)
            && log[atError..atError + 18] == "# Startup failure\n" && log[atError + 18..] == error
  {
    var ss := StartupSections(cmd, error);
    RenderTwo(ss[0], ss[1]);
    assert ss == [ss[0], ss[1]];
    CommandHeader(Str(cmd));
    StartupHeader(error);
    var c := Str(cmd);
    var log := "# Command\n" + c + "\n\n" + ("# Startup failure\n" + error);
    assert log[..10] == "# Command\n" && log[10..10 + |c|] == c;
    assert log[12 + |c|..] == "# Startup failure\n" + error;
  }

  // ----------------------------------------------------------- supervision

  /** How a supervised run went: the process could not be started, or it ran and exited. */
  datatype Run = SpawnFailed(error: string) | Exited(code: int, out: Option<string>, err: Option<string>)

  datatype LogEntry = LogEntry(path: string, contents: string)

  /** What `start_subprocess` and its watcher leave behind: a log file, a console report, a re-raised error. */
  datatype Supervision = Supervision(log: Option<LogEntry>, report: Option<string>, raises: bool)

  function CrashReport(program: string, code: string): string {
    "[subprocess] subprocess by the name " + program + " crashed with code " + code
  }

  /**
    `start_subprocess` from spawn to exit. A spawn failure (in either mode)
    writes the start-up log, reports it and re-raises; an exit is handled as
    `OnExit` says, the log going to the path of the minute `now` it was written.
   */
  function Supervise(cmd: Command, debug: bool, logDir: string, now: DateTime, run: Run): (s: Supervision)
    requires now.Valid()
    ensures run.SpawnFailed? ==>
              && s.raises
              && s.log == Some(LogEntry(LogPath(logDir, now, ProgramName(cmd)), Render(StartupSections(cmd, run.error))))
              && s.report == Some(CrashReport(ProgramName(cmd), "(failed to start)"))
    ensures run.Exited? ==>
              && !s.raises
              && (s.log.Some? <==> OnExit(debug, run.code).writeLog)
              && (s.report.Some? <==> OnExit(debug, run.code).report)
              && (s.log.Some? ==> s.log.value == LogEntry(LogPath(logDir, now, ProgramName(cmd)),
                                                       Render(CrashSections(cmd, run.code, run.out, run.err))))
              && (s.report.Some? ==> s.report.value == CrashReport(ProgramName(cmd), IntToString(run.code)))
  {
    var program := ProgramName(cmd);
    match run
    case SpawnFailed(error) =>
      Supervision(Some(LogEntry(LogPath(logDir, now, program), Render(StartupSections(cmd, error)))),
                  Some(CrashReport(program, "(failed to start)")), true)
    case Exited(code, out, err) =>
      var h := OnExit(debug, code);
      var log := if h.writeLog then Some(LogEntry(LogPath(logDir, now, program), Render(CrashSections(cmd, code, out, err)))) else None;
      var report := if h.report then Some(CrashReport(program, IntToString(code))) else None;
      Supervision(log, report, false)
  }

  /** A clean exit leaves no trace in either mode. */
  lemma CleanExitIsSilent(cmd: Command, debug: bool, logDir: string, now: DateTime, out: Option<string>, err: Option<string>)
    requires now.Valid()
    ensures Supervise(cmd, debug, logDir, now, Exited(0, out, err)) == Supervision(None, None, false)
  {
  }

  /** Without debug mode, a logged crash is exactly a reported crash. */
  lemma QuietLogsWhatItReports(cmd: Command, logDir: string, now: DateTime, code: int, out: Option<string>, err: Option<string>)
    requires now.Valid()
    ensures var s := Supervise(cmd, false, logDir, now, Exited(code, out, err));
            s.log.Some? <==> s.report.Some?
  {
  }
}
