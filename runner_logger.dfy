/** The zerologger package of bot_runner_go: configuration defaulting, the
    list of writers to close that NewLogger builds, and a Close that tries
    every one of them and joins their errors. */
module RunnerLogger {
  import opened Wrappers
  import opened LogDefaults

  class Config {
    var logFile: string
    var logConsole: bool
    var level: string
    var maxSize: int
    var maxBackups: int
    var maxAge: int
    var compress: bool
    var localTime: bool

    function Settings(): Rotation
      reads this
    {
      Rotation(level, maxSize, maxBackups, maxAge)
    }

    constructor (logFile: string, logConsole: bool, r: Rotation, compress: bool, localTime: bool)
      ensures this.logFile == logFile && this.logConsole == logConsole && Settings() == r
      ensures this.compress == compress && this.localTime == localTime
    {
      this.logFile, this.logConsole, this.compress, this.localTime := logFile, logConsole, compress, localTime;
      level, maxSize, maxBackups, maxAge := r.level, r.maxSize, r.maxBackups, r.maxAge;
    }

    /** Validate never fails; it fills in the zero settings and leaves the
        file, console and rotation flags as they were. */
    method Validate() returns (err: Option<string>)
      modifies this
      ensures err.None? && Settings() == Defaulted(old(Settings()))
      ensures logFile == old(logFile) && logConsole == old(logConsole)
      ensures compress == old(compress) && localTime == old(localTime)
    {
      if level == "" {
        level := DefaultLevel;
      }
      if maxSize == 0 {
        maxSize := DefaultMaxSize;
      }
      if maxBackups == 0 {
        maxBackups := DefaultMaxBackups;
      }
      if maxAge == 0 {
        maxAge := DefaultMaxAge;
      }
      return None;
    }
  }

  /** The writers the logger must close: the rotating file writer and the
      console writer. */
  datatype Closer = FileWriter(filename: string) | ConsoleWriter

  /** The closers NewLogger collects: the file writer exactly when a log file
      is named, the console writer exactly when console output is on, the
      file writer first. */
  function Closers(logFile: string, logConsole: bool): (cs: seq<Closer>)
    ensures FileWriter(logFile) in cs <==> logFile != ""
    ensures ConsoleWriter in cs <==> logConsole
    ensures forall c :: c in cs ==> c == FileWriter(logFile) || c == ConsoleWriter
    ensures |cs| == (if logFile != "" then 1 else 0) + (if logConsole then 1 else 0)
    ensures logFile != "" ==> cs[0] == FileWriter(logFile)
  {
    (if logFile != "" then [FileWriter(logFile)] else []) + (if logConsole then [ConsoleWriter] else [])
  }

  const CloseErrorPrefix := "failed to close logger: "

  /** The wrapped errors of the closers that fail, in closing order. */
  function Failures(cs: seq<Closer>, closeErr: Closer -> Option<string>): seq<string>
  {
    if cs == [] then []
    else
      var rest := Failures(cs[1..], closeErr);
      match closeErr(cs[0])
      case Some(e) => [CloseErrorPrefix + e] + rest
      case None => rest
  }

  /** errors.Join: the messages, one per line. */
  function JoinLines(errs: seq<string>): string
  {
    if errs == [] then ""
    else if |errs| == 1 then errs[0]
    else errs[0] + "\n" + JoinLines(errs[1..])
  }

  /** There are no failures exactly when every closer closes cleanly, and
      there is one wrapped error per failing closer. */
  lemma {:induction false} FailuresIffSomeCloserFails(cs: seq<Closer>, closeErr: Closer -> Option<string>)
    ensures Failures(cs, closeErr) == [] <==> forall i :: 0 <= i < |cs| ==> closeErr(cs[i]).None?
    ensures |Failures(cs, closeErr)| <= |cs|
    ensures forall e :: e in Failures(cs, closeErr) ==>
              exists i :: 0 <= i < |cs| && closeErr(cs[i]).Some? && e == CloseErrorPrefix + closeErr(cs[i]).value
  {
    if cs != [] {
      FailuresIffSomeCloserFails(cs[1..], closeErr);
      forall e | e in Failures(cs, closeErr)
        ensures exists i :: 0 <= i < |cs| && closeErr(cs[i]).Some? && e == CloseErrorPrefix + closeErr(cs[i]).value
      {
        if e !in Failures(cs[1..], closeErr) {
          assert closeErr(cs[0]).Some? && e == CloseErrorPrefix + closeErr(cs[0]).value;
        } else {
          var i :| 0 <= i < |cs[1..]| && closeErr(cs[1..][i]).Some? && e == CloseErrorPrefix + closeErr(cs[1..][i]).value;
          assert cs[i + 1] == cs[1..][i];
        }
      }
      if forall i :: 0 <= i < |cs| ==> closeErr(cs[i]).None? {
        assert forall i :: 0 <= i < |cs[1..]| ==> cs[1..][i] == cs[i + 1];
      }
    }
  }

  class Logger {
    const closers: seq<Closer>

    constructor (closers: seq<Closer>)
      ensures this.closers == closers
    {
      this.closers := closers;
    }

    /** Close calls every closer, whatever the earlier ones did, and joins
        the wrapped errors of those that failed. */
    method Close(closeErr: Closer -> Option<string>) returns (tried: seq<Closer>, err: Option<string>)
      ensures tried == closers
      ensures err.None? <==> forall i :: 0 <= i < |closers| ==> closeErr(closers[i]).None?
      ensures err.Some? ==> err.value == JoinLines(Failures(closers, closeErr))
    {
      var errs: seq<string> := [];
      tried := [];
      for k := 0 to |closers|
        invariant tried == closers[..k]
        invariant errs + Failures(closers[k..], closeErr) == Failures(closers, closeErr)
      {
        var c := closers[k];
        tried := tried + [c];
        assert closers[k..][1..] == closers[k + 1..];
        match closeErr(c) {
          case Some(e) =>
            errs := errs + [CloseErrorPrefix + e];
          case None =>
        }
      }
      assert closers[..|closers|] == closers;
      assert closers[|closers|..] == [];
      assert errs + [] == errs;
      assert errs == Failures(closers, closeErr);
      FailuresIffSomeCloserFails(closers, closeErr);
      if |errs| > 0 {
        err := Some(JoinLines(errs));
      } else {
        err := None;
      }
    }
  }

  const ErrMkdirPrefix := "failed to create log directory "
  const ErrLevelPrefix := "invalid log level "

  /** NewLogger: validates (which never fails), creates the log directory
      when a file is named, then parses the level. `mkdir` is the outcome of
      creating the directory `dirOf(logFile)`, `parseLevel` the parse error
      of a level name, if any. */
  method NewLogger(cfg: Config, dirOf: string -> string, mkdir: string -> Option<string>,
                   parseLevel: string -> Option<string>) returns (logger: Logger?, err: Option<string>)
    modifies cfg
    ensures cfg.Settings() == Defaulted(old(cfg.Settings())) && cfg.logFile == old(cfg.logFile) && cfg.logConsole == old(cfg.logConsole)
    ensures cfg.compress == old(cfg.compress) && cfg.localTime == old(cfg.localTime)
    ensures logger != null <==> err.None?
    ensures cfg.logFile != "" && mkdir(dirOf(cfg.logFile)).Some? ==>
              err == Some(ErrMkdirPrefix + dirOf(cfg.logFile) + ": " + mkdir(dirOf(cfg.logFile)).value)
    ensures (cfg.logFile == "" || mkdir(dirOf(cfg.logFile)).None?) && parseLevel(cfg.level).Some? ==>
              err == Some(ErrLevelPrefix + cfg.level + ": " + parseLevel(cfg.level).value)
    ensures err.None? <==> (cfg.logFile == "" || mkdir(dirOf(cfg.logFile)).None?) && parseLevel(cfg.level).None?
    ensures logger != null ==> fresh(logger) && logger.closers == Closers(cfg.logFile, cfg.logConsole)
  {
    // Validate never fails, so its "invalid logger config" branch is dead.
    var _ := cfg.Validate();
    var closer: seq<Closer> := [];
    if cfg.logFile != "" {
      var dir := dirOf(cfg.logFile);
      var e := mkdir(dir);
      if e.Some? {
        return null, Some(ErrMkdirPrefix + dir + ": " + e.value);
      }
      closer := closer + [FileWriter(cfg.logFile)];
    }
    if cfg.logConsole {
      closer := closer + [ConsoleWriter];
    }
    var levelErr := parseLevel(cfg.level);
    if levelErr.Some? {
      return null, Some(ErrLevelPrefix + cfg.level + ": " + levelErr.value);
    }
    logger := new Logger(closer);
    err := None;
  }
}
