/** The zerologger package of bot_worker: configuration defaulting and a
    logger whose rotating file hook is closed at most once. */
module WorkerLogger {
  import opened Wrappers
  import opened LogDefaults

  class Config {
    var logFile: string
    var level: string
    var maxSize: int
    var maxBackups: int
    var maxAge: int
    var compress: bool
    var localTime: bool

    function Settings(): Rotation
      reads this
    {
      Rotation(level, maxSize, maxBackups, maxAge)
    }

    constructor (logFile: string, r: Rotation, compress: bool, localTime: bool)
      ensures this.logFile == logFile && Settings() == r
      ensures this.compress == compress && this.localTime == localTime
    {
      this.logFile, this.compress, this.localTime := logFile, compress, localTime;
      level, maxSize, maxBackups, maxAge := r.level, r.maxSize, r.maxBackups, r.maxAge;
    }

    /** Validate never fails; it fills in the zero settings and leaves the
        other fields as they were. */
    method Validate() returns (err: Option<string>)
      modifies this
      ensures err.None? && Settings() == Defaulted(old(Settings()))
      ensures logFile == old(logFile) && compress == old(compress) && localTime == old(localTime)
    {
      if level == "" {
        level := DefaultLevel;
      }
      if maxSize == 0 {
        maxSize := DefaultMaxSize;
      }
      if maxBackups == 0 {
        maxBackups := DefaultMaxBackups;
      }
      if maxAge == 0 {
        maxAge := DefaultMaxAge;
      }
      return None;
    }
  }

  /** The rotating file writer behind the logger. */
  datatype Hook = Hook(filename: string)

  const CloseErrorPrefix := "failed to close logger hook: "

  class Logger {
    var hook: Option<Hook>

    constructor (hook: Hook)
      ensures this.hook == Some(hook)
    {
      this.hook := Some(hook);
    }

    /** Close the hook if it is still open. `hookErr` is what closing it
        gives. On failure the error is wrapped and the hook is kept, so a
        later Close tries again; on success the hook is dropped, and every
        later Close returns nil without doing anything. */
    method Close(hookErr: Option<string>) returns (err: Option<string>)
      modifies this
      ensures old(hook).None? ==> err.None? && hook.None?
      ensures old(hook).Some? && hookErr.Some? ==> err == Some(CloseErrorPrefix + hookErr.value) && hook == old(hook)
      ensures old(hook).Some? && hookErr.None? ==> err.None? && hook.None?
    {
      if hook.Some? {
        if hookErr.Some? {
          return Some(CloseErrorPrefix + hookErr.value);
        }
        hook := None;
      }
      return None;
    }
  }

  const ErrLevelPrefix := "invalid log level "

  /** NewLogger: validates (which never fails), then parses the level;
      `parseLevel` gives the parse error of a level name, if any. */
  method NewLogger(cfg: Config, parseLevel: string -> Option<string>) returns (logger: Logger?, err: Option<string>)
    modifies cfg
    ensures cfg.Settings() == Defaulted(old(cfg.Settings())) && cfg.logFile == old(cfg.logFile)
    ensures cfg.compress == old(cfg.compress) && cfg.localTime == old(cfg.localTime)
    ensures logger != null <==> err.None?
    ensures err.None? <==> parseLevel(cfg.level).None?
    ensures parseLevel(cfg.level).Some? ==> err == Some(ErrLevelPrefix + cfg.level + ": " + parseLevel(cfg.level).value)
    ensures logger != null ==> fresh(logger) && logger.hook == Some(Hook(cfg.logFile))
  {
    // Validate never fails, so its "invalid logger config" branch is dead.
    var _ := cfg.Validate();
    var levelErr := parseLevel(cfg.level);
    if levelErr.Some? {
      return null, Some(ErrLevelPrefix + cfg.level + ": " + levelErr.value);
    }
    logger := new Logger(Hook(cfg.logFile));
    err := None;
  }
}
