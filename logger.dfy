/**
 * pkg/log/logger.go: building the service's zap logger. Option setters are
 * applied in order to the defaults, each level gets its own rotating file,
 * and each core accepts exactly one level (if the configured level lets it
 * through), with console copies in development mode.
 *
 * zap levels are `int8`; the priority test subtracts in `int8`, so its
 * wrap-around is written out. The path separator is a parameter. Encoders,
 * lumberjack's rotation and zap's `Build` are not part of this model.
 */
module Log {
  import opened Common

  /** `zapcore.Level`, an `int8`. */
  newtype Level = x: int | -128 <= x < 128

  const DebugLevel: Level := -1
  const InfoLevel: Level := 0
  const WarnLevel: Level := 1
  const ErrorLevel: Level := 2

  /** An `int` reduced to `int8` the way Go's two's-complement arithmetic does. */
  function Wrap8(x: int): (r: Level)
    ensures -128 <= x < 128 ==> r as int == x
    ensures (r as int - x) % 256 == 0
  {
    ((x + 128) % 256 - 128) as Level
  }

  const DefaultMaxSize := 512
  const DefaultMaxAge := 10
  const DefaultMaxBackups := 100

  /** Options, with the two output-path lists of the embedded zap.Config. */
  datatype Options = Options(
    logFileDir: string,
    appName: string,
    errorFileName: string,
    warnFileName: string,
    infoFileName: string,
    debugFileName: string,
    level: Level,
    maxSize: int,
    maxBackups: int,
    maxAge: int,
    development: bool,
    outputPaths: seq<string>,
    errorOutputPaths: seq<string>)

  /** The options NewLogger starts from. */
  const Defaults := Options("", "", "error.log", "warn.log", "info.log", "debug.log",
                            DebugLevel, DefaultMaxSize, DefaultMaxBackups, DefaultMaxAge, false, [], [])

  /** The ModOptions setters, one per option field. */
  datatype ModOption =
    | SetMaxSize(maxSize: int)
    | SetMaxBackups(maxBackups: int)
    | SetMaxAge(maxAge: int)
    | SetLogFileDir(logFileDir: string)
    | SetAppName(appName: string)
    | SetLevel(level: Level)
    | SetErrorFileName(errorFileName: string)
    | SetWarnFileName(warnFileName: string)
    | SetInfoFileName(infoFileName: string)
    | SetDebugFileName(debugFileName: string)
    | SetDevelopment(development: bool)

  /** The option fields a setter can write. */
  datatype Field =
    | MaxSize | MaxBackups | MaxAge | LogFileDir | AppName | LevelField
    | ErrorFileName | WarnFileName | InfoFileName | DebugFileName | Development

  /** The value of one option field. */
  datatype Value = IntValue(i: int) | StringValue(s: string) | LevelValue(l: Level) | BoolValue(b: bool)

  function FieldOf(m: ModOption): Field
  {
    match m
    case SetMaxSize(_) => MaxSize
    case SetMaxBackups(_) => MaxBackups
    case SetMaxAge(_) => MaxAge
    case SetLogFileDir(_) => LogFileDir
    case SetAppName(_) => AppName
    case SetLevel(_) => LevelField
    case SetErrorFileName(_) => ErrorFileName
    case SetWarnFileName(_) => WarnFileName
    case SetInfoFileName(_) => InfoFileName
    case SetDebugFileName(_) => DebugFileName
    case SetDevelopment(_) => Development
  }

  function ValueOf(m: ModOption): Value
  {
    match m
    case SetMaxSize(v) => IntValue(v)
    case SetMaxBackups(v) => IntValue(v)
    case SetMaxAge(v) => IntValue(v)
    case SetLogFileDir(v) => StringValue(v)
    case SetAppName(v) => StringValue(v)
    case SetLevel(v) => LevelValue(v)
    case SetErrorFileName(v) => StringValue(v)
    case SetWarnFileName(v) => StringValue(v)
    case SetInfoFileName(v) => StringValue(v)
    case SetDebugFileName(v) => StringValue(v)
    case SetDevelopment(v) => BoolValue(v)
  }

  /** The current value of a field. */
  function Get(o: Options, f: Field): Value
  {
    match f
    case MaxSize => IntValue(o.maxSize)
    case MaxBackups => IntValue(o.maxBackups)
    case MaxAge => IntValue(o.maxAge)
    case LogFileDir => StringValue(o.logFileDir)
    case AppName => StringValue(o.appName)
    case LevelField => LevelValue(o.level)
    case ErrorFileName => StringValue(o.errorFileName)
    case WarnFileName => StringValue(o.warnFileName)
    case InfoFileName => StringValue(o.infoFileName)
    case DebugFileName => StringValue(o.debugFileName)
    case Development => BoolValue(o.development)
  }

  /** Running one setter's closure on the options. */
  function Apply(o: Options, m: ModOption): (r: Options)
    ensures Get(r, FieldOf(m)) == ValueOf(m)
    ensures forall f :: f != FieldOf(m) ==> Get(r, f) == Get(o, f)
    ensures r.outputPaths == o.outputPaths && r.errorOutputPaths == o.errorOutputPaths
  {
    match m
    case SetMaxSize(v) => o.(maxSize := v)
    case SetMaxBackups(v) => o.(maxBackups := v)
    case SetMaxAge(v) => o.(maxAge := v)
    case SetLogFileDir(v) => o.(logFileDir := v)
    case SetAppName(v) => o.(appName := v)
    case SetLevel(v) => o.(level := v)
    case SetErrorFileName(v) => o.(errorFileName := v)
    case SetWarnFileName(v) => o.(warnFileName := v)
    case SetInfoFileName(v) => o.(infoFileName := v)
    case SetDebugFileName(v) => o.(debugFileName := v)
    case SetDevelopment(v) => o.(development := v)
  }

  /** Two options agree on every field a setter can write and on the output paths. */
  lemma GetDetermines(a: Options, b: Options)
    requires forall f :: Get(a, f) == Get(b, f)
    requires a.outputPaths == b.outputPaths && a.errorOutputPaths == b.errorOutputPaths
    ensures a == b
  {
    assert Get(a, MaxSize) == Get(b, MaxSize) && Get(a, MaxBackups) == Get(b, MaxBackups);
    assert Get(a, MaxAge) == Get(b, MaxAge) && Get(a, LogFileDir) == Get(b, LogFileDir);
    assert Get(a, AppName) == Get(b, AppName) && Get(a, LevelField) == Get(b, LevelField);
    assert Get(a, ErrorFileName) == Get(b, ErrorFileName) && Get(a, WarnFileName) == Get(b, WarnFileName);
    assert Get(a, InfoFileName) == Get(b, InfoFileName) && Get(a, DebugFileName) == Get(b, DebugFileName);
    assert Get(a, Development) == Get(b, Development);
  }

  /** A later setter of the same field overrides an earlier one. */
  lemma LaterSetterOverrides(o: Options, m1: ModOption, m2: ModOption)
    requires FieldOf(m1) == FieldOf(m2)
    ensures Apply(Apply(o, m1), m2) == Apply(o, m2)
  {
    var a := Apply(Apply(o, m1), m2);
    var b := Apply(o, m2);
    forall f
      ensures Get(a, f) == Get(b, f)
    {
      if f != FieldOf(m2) {
        assert Get(a, f) == Get(Apply(o, m1), f) == Get(o, f);
      }
    }
    GetDetermines(a, b);
  }

  /** The setters applied in argument order. */
  function ApplyAll(o: Options, mods: seq<ModOption>): Options
    decreases |mods|
  {
    if mods == [] then o else ApplyAll(Apply(o, mods[0]), mods[1..])
  }

  /** The value the last setter of `f` in `mods` writes, if any. */
  function LastSet(mods: seq<ModOption>, f: Field): Option<Value>
  {
    if mods == [] then None
    else if FieldOf(mods[|mods| - 1]) == f then Some(ValueOf(mods[|mods| - 1]))
    else LastSet(mods[..|mods| - 1], f)
  }

  /** Applying a list and then one more setter is applying the longer list. */
  lemma {:induction false} ApplyAllSnoc(o: Options, mods: seq<ModOption>, m: ModOption)
    ensures ApplyAll(o, mods + [m]) == Apply(ApplyAll(o, mods), m)
    decreases |mods|
  {
    if mods == [] {
      assert mods + [m] == [m];
      assert [m][1..] == [];
    } else {
      assert (mods + [m])[0] == mods[0];
      assert (mods + [m])[1..] == mods[1..] + [m];
      ApplyAllSnoc(Apply(o, mods[0]), mods[1..], m);
    }
  }

  /** Each field ends with the value of its last setter, or keeps its starting value when none sets it. */
  lemma {:induction false} LastSetterWins(o: Options, mods: seq<ModOption>, f: Field)
    ensures LastSet(mods, f).Some? ==> Get(ApplyAll(o, mods), f) == LastSet(mods, f).value
    ensures LastSet(mods, f).None? ==> Get(ApplyAll(o, mods), f) == Get(o, f)
    decreases |mods|
  {
    if mods != [] {
      var init := mods[..|mods| - 1];
      var m := mods[|mods| - 1];
      assert mods == init + [m];
      ApplyAllSnoc(o, init, m);
      LastSetterWins(o, init, f);
    }
  }

  /** No setter touches the embedded zap output paths. */
  lemma {:induction false} ApplyAllKeepsPaths(o: Options, mods: seq<ModOption>)
    ensures ApplyAll(o, mods).outputPaths == o.outputPaths
    ensures ApplyAll(o, mods).errorOutputPaths == o.errorOutputPaths
    decreases |mods|
  {
    if mods != [] {
      ApplyAllKeepsPaths(Apply(o, mods[0]), mods[1..]);
    }
  }

  /** `zap.NewDevelopmentConfig().OutputPaths`. */
  const DevelopmentOutputPaths := ["stderr"]

  /**
   * The zap output paths NewLogger configures: "stdout" when the options give
   * no output paths, then overwritten by "stderr" when they give no error
   * output paths.
   */
  function ZapOutputPaths(o: Options): (r: seq<string>)
    ensures o.errorOutputPaths == [] ==> r == ["stderr"]
    ensures o.errorOutputPaths != [] && o.outputPaths == [] ==> r == ["stdout"]
    ensures o.errorOutputPaths != [] && o.outputPaths != [] ==> r == DevelopmentOutputPaths
  {
    var afterOutput := if |o.outputPaths| == 0 then ["stdout"] else DevelopmentOutputPaths;
    if |o.errorOutputPaths| == 0 then ["stderr"] else afterOutput
  }

  /** A rotating log file (lumberjack.Logger). */
  datatype Sink = Sink(filename: string, maxSize: int, maxBackups: int, maxAge: int, compress: bool, localTime: bool)

  /** The file name of one level's sink. */
  function FilePath(o: Options, sep: char, fileName: string): string
  {
    o.logFileDir + [sep] + o.appName + "-" + fileName
  }

  /** Within one set of options, distinct file names give distinct paths. */
  lemma FilePathsDistinct(o: Options, sep: char, n1: string, n2: string)
    requires n1 != n2
    ensures FilePath(o, sep, n1) != FilePath(o, sep, n2)
  {
    var p := o.logFileDir + [sep] + o.appName + "-";
    assert FilePath(o, sep, n1) == p + n1 && FilePath(o, sep, n2) == p + n2;
    assert (p + n1)[|p|..] == n1 && (p + n2)[|p|..] == n2;
  }

  /** The four level files of the default options are four different files. */
  lemma DefaultPathsDistinct(sep: char)
    ensures FilePath(Defaults, sep, Defaults.errorFileName) != FilePath(Defaults, sep, Defaults.warnFileName)
    ensures FilePath(Defaults, sep, Defaults.errorFileName) != FilePath(Defaults, sep, Defaults.infoFileName)
    ensures FilePath(Defaults, sep, Defaults.errorFileName) != FilePath(Defaults, sep, Defaults.debugFileName)
    ensures FilePath(Defaults, sep, Defaults.warnFileName) != FilePath(Defaults, sep, Defaults.infoFileName)
    ensures FilePath(Defaults, sep, Defaults.warnFileName) != FilePath(Defaults, sep, Defaults.debugFileName)
    ensures FilePath(Defaults, sep, Defaults.infoFileName) != FilePath(Defaults, sep, Defaults.debugFileName)
  {
    assert "error.log"[0] != "warn.log"[0] && "error.log"[0] != "info.log"[0] && "error.log"[0] != "debug.log"[0];
    assert "warn.log"[0] != "info.log"[0] && "warn.log"[0] != "debug.log"[0] && "info.log"[0] != "debug.log"[0];
    FilePathsDistinct(Defaults, sep, "error.log", "warn.log");
    FilePathsDistinct(Defaults, sep, "error.log", "info.log");
    FilePathsDistinct(Defaults, sep, "error.log", "debug.log");
    FilePathsDistinct(Defaults, sep, "warn.log", "info.log");
    FilePathsDistinct(Defaults, sep, "warn.log", "debug.log");
    FilePathsDistinct(Defaults, sep, "info.log", "debug.log");
  }

  /** The sink setSyncers builds for one file name. */
  function SinkFor(o: Options, sep: char, fileName: string): (s: Sink)
    ensures s.filename == FilePath(o, sep, fileName)
    ensures s.maxSize == o.maxSize && s.maxBackups == o.maxBackups && s.maxAge == o.maxAge
    ensures !s.compress && s.localTime
  {
    Sink(FilePath(o, sep, fileName), o.maxSize, o.maxBackups, o.maxAge, false, true)
  }

  /** The package-level write syncers `errWS`, `warnWS`, `infoWS` and `debugWS`. */
  class WriteSyncers {
    var errWS: Option<Sink>
    var warnWS: Option<Sink>
    var infoWS: Option<Sink>
    var debugWS: Option<Sink>

    constructor ()
      ensures errWS == None && warnWS == None && infoWS == None && debugWS == None
    {
      errWS, warnWS, infoWS, debugWS := None, None, None, None;
    }
  }

  /**
   * A level-priority closure: the core's own level only, and only when
   * `coreLevel - configured`, computed in `int8`, is not negative.
   */
  predicate Priority(coreLevel: Level, configured: Level, lvl: Level)
  {
    lvl == coreLevel && Wrap8(coreLevel as int - configured as int) > -1
  }

  /**
   * For the four core levels and any configured level that does not wrap,
   * a core accepts exactly its own level when the configured level is at
   * most that level.
   */
  lemma PriorityIff(coreLevel: Level, configured: Level, lvl: Level)
    requires DebugLevel <= coreLevel <= ErrorLevel
    requires configured as int >= coreLevel as int - 127
    ensures Priority(coreLevel, configured, lvl) <==> lvl == coreLevel && configured <= lvl
  {
    assert -128 <= coreLevel as int - configured as int < 128;
  }

  /** With a configured level of -126, the int8 subtraction wraps and the error file drops every error. */
  lemma ErrorPriorityWraps()
    ensures !Priority(ErrorLevel, -126, ErrorLevel)
  {
    assert Wrap8(128) == -128;
  }

  /** Where a core writes. */
  datatype Destination = File(sink: Sink) | Stdout | Stderr

  /** A zapcore.Core reduced to its destination and the level its priority closure tests for. */
  datatype Core = Core(dest: Destination, level: Level)

  /** Whether a core writes an entry of level `lvl`. */
  predicate Accepts(c: Core, configured: Level, lvl: Level)
  {
    Priority(c.level, configured, lvl)
  }

  /** The four file cores, error first. */
  function FileCores(err: Sink, warn: Sink, info: Sink, debug: Sink): (cs: seq<Core>)
    ensures |cs| == 4
    ensures cs[0].level == ErrorLevel && cs[1].level == WarnLevel && cs[2].level == InfoLevel && cs[3].level == DebugLevel
  {
    [Core(File(err), ErrorLevel), Core(File(warn), WarnLevel), Core(File(info), InfoLevel), Core(File(debug), DebugLevel)]
  }

  /** cores: the file cores, followed in development mode by console cores with the same priorities. */
  function Cores(development: bool, err: Sink, warn: Sink, info: Sink, debug: Sink): (cs: seq<Core>)
    ensures |cs| == if development then 8 else 4
    ensures cs[..4] == FileCores(err, warn, info, debug)
    ensures forall i :: 0 <= i < |cs| ==> (cs[i].dest.File? <==> i < 4)
    ensures development ==>
      && cs[4] == Core(Stderr, ErrorLevel)
      && cs[5] == Core(Stdout, WarnLevel)
      && cs[6] == Core(Stdout, InfoLevel)
      && cs[7] == Core(Stdout, DebugLevel)
  {
    var files := FileCores(err, warn, info, debug);
    if development then
      files + [Core(Stderr, ErrorLevel), Core(Stdout, WarnLevel), Core(Stdout, InfoLevel), Core(Stdout, DebugLevel)]
    else files
  }

  /** The indices of the cores that accept an entry (zap's Tee dispatch). */
  function Accepting(cs: seq<Core>, configured: Level, lvl: Level): set<nat>
  {
    set i: nat | i < |cs| && Accepts(cs[i], configured, lvl)
  }

  /** Every entry reaches at most one file core, and a level above Error reaches no core at all. */
  lemma AtMostOneFileCore(development: bool, err: Sink, warn: Sink, info: Sink, debug: Sink, configured: Level, lvl: Level)
    ensures var cs := Cores(development, err, warn, info, debug);
      forall i, j :: i in Accepting(cs, configured, lvl) && j in Accepting(cs, configured, lvl) && i < 4 && j < 4 ==> i == j
    ensures lvl > ErrorLevel ==> Accepting(Cores(development, err, warn, info, debug), configured, lvl) == {}
  {
    var cs := Cores(development, err, warn, info, debug);
    if lvl > ErrorLevel {
      forall i | 0 <= i < |cs|
        ensures !Accepts(cs[i], configured, lvl)
      {
        assert cs[i].level <= ErrorLevel;
      }
    }
  }

  /**
   * Without wrap-around, the file core of the entry's level accepts it exactly
   * when the configured level is at most the entry's level; the console copies
   * in development mode do the same.
   */
  lemma FileRouting(development: bool, err: Sink, warn: Sink, info: Sink, debug: Sink, configured: Level, lvl: Level, i: nat)
    requires configured as int >= -125
    requires i < |Cores(development, err, warn, info, debug)|
    ensures var c := Cores(development, err, warn, info, debug)[i];
      Accepts(c, configured, lvl) <==> lvl == c.level && configured <= lvl
  {
    var c := Cores(development, err, warn, info, debug)[i];
    assert DebugLevel <= c.level <= ErrorLevel;
    PriorityIff(c.level, configured, lvl);
  }

  /** A Logger under construction. */
  class Logger {
    var opts: Options
    var zapOutputPaths: seq<string>
    var zapLevel: Level
    var cores: seq<Core>
    var initd: bool

    constructor ()
      ensures !initd && cores == []
    {
      opts := Defaults;
      zapOutputPaths := DevelopmentOutputPaths;
      zapLevel := InfoLevel;
      cores := [];
      initd := false;
    }

    /** setSyncers: one sink per level file, built from the current options. */
    method SetSyncers(sep: char, ws: WriteSyncers)
      modifies ws
      ensures ws.errWS == Some(SinkFor(opts, sep, opts.errorFileName))
      ensures ws.warnWS == Some(SinkFor(opts, sep, opts.warnFileName))
      ensures ws.infoWS == Some(SinkFor(opts, sep, opts.infoFileName))
      ensures ws.debugWS == Some(SinkFor(opts, sep, opts.debugFileName))
    {
      ws.errWS := Some(SinkFor(opts, sep, opts.errorFileName));
      ws.warnWS := Some(SinkFor(opts, sep, opts.warnFileName));
      ws.infoWS := Some(SinkFor(opts, sep, opts.infoFileName));
      ws.debugWS := Some(SinkFor(opts, sep, opts.debugFileName));
    }

    /** init: sets the syncers and builds the core list from them. */
    method Init(sep: char, ws: WriteSyncers)
      modifies this`cores, ws
      ensures ws.errWS.Some? && ws.warnWS.Some? && ws.infoWS.Some? && ws.debugWS.Some?
      ensures ws.errWS.value == SinkFor(opts, sep, opts.errorFileName)
      ensures ws.warnWS.value == SinkFor(opts, sep, opts.warnFileName)
      ensures ws.infoWS.value == SinkFor(opts, sep, opts.infoFileName)
      ensures ws.debugWS.value == SinkFor(opts, sep, opts.debugFileName)
      ensures cores == Cores(opts.development, ws.errWS.value, ws.warnWS.value, ws.infoWS.value, ws.debugWS.value)
    {
      SetSyncers(sep, ws);
      cores := Cores(opts.development, ws.errWS.value, ws.warnWS.value, ws.infoWS.value, ws.debugWS.value);
    }
  }

  /**
   * NewLogger: the defaults with every setter applied in order, the zap
   * output paths and level configured, and the cores built. The `initd`
   * guard is checked on a fresh Logger, so a logger is always returned.
   */
  method NewLogger(mods: seq<ModOption>, sep: char, ws: WriteSyncers) returns (l: Logger)
    modifies ws
    ensures fresh(l) && l.initd
    ensures l.opts == ApplyAll(Defaults, mods)
    ensures l.zapLevel == l.opts.level
    ensures l.zapOutputPaths == ["stderr"]
    ensures ws.errWS == Some(SinkFor(l.opts, sep, l.opts.errorFileName))
    ensures ws.warnWS == Some(SinkFor(l.opts, sep, l.opts.warnFileName))
    ensures ws.infoWS == Some(SinkFor(l.opts, sep, l.opts.infoFileName))
    ensures ws.debugWS == Some(SinkFor(l.opts, sep, l.opts.debugFileName))
    ensures l.cores == Cores(l.opts.development, ws.errWS.value, ws.warnWS.value, ws.infoWS.value, ws.debugWS.value)
  {
    l := new Logger();
    l.opts := Defaults;

    for i := 0 to |mods|
      invariant ApplyAll(l.opts, mods[i..]) == ApplyAll(Defaults, mods)
    {
      assert mods[i..][0] == mods[i] && mods[i..][1..] == mods[i + 1..];
      l.opts := Apply(l.opts, mods[i]);
    }
    assert mods[|mods|..] == [];

    l.zapOutputPaths := DevelopmentOutputPaths;
    if |l.opts.outputPaths| == 0 {
      l.zapOutputPaths := ["stdout"];
    }
    if |l.opts.errorOutputPaths| == 0 {
      l.zapOutputPaths := ["stderr"];
    }
    ApplyAllKeepsPaths(Defaults, mods);

    l.zapLevel := l.opts.level;
    l.Init(sep, ws);
    l.initd := true;
  }

  /** Without setters the logger keeps the defaults: the four level files, Debug level and 512/100/10 rotation. */
  lemma NoSettersKeepDefaults()
    ensures ApplyAll(Defaults, []) == Defaults
    ensures Defaults.errorFileName == "error.log" && Defaults.warnFileName == "warn.log"
    ensures Defaults.infoFileName == "info.log" && Defaults.debugFileName == "debug.log"
    ensures Defaults.level == DebugLevel && !Defaults.development
    ensures Defaults.maxSize == 512 && Defaults.maxBackups == 100 && Defaults.maxAge == 10
  {
  }

  /** Whatever the setters, the zap output paths end up as ["stderr"]: no setter gives error output paths. */
  lemma OutputPathsAlwaysStderr(mods: seq<ModOption>)
    ensures ZapOutputPaths(ApplyAll(Defaults, mods)) == ["stderr"]
  {
    ApplyAllKeepsPaths(Defaults, mods);
  }
}
