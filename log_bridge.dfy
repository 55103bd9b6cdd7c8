/** `SendToLogger.log`: an engine log entry is forwarded to the host logger
    method named by its level, with `warn` spelled `warning` and `info` for
    any level the logger has no method for. */
module LogBridge {

  /** Python's `s.replace(pat, rep)`: every occurrence of `pat`, scanning
      from the left and without overlaps, is replaced by `rep`. */
  function Replace(s: string, pat: string, rep: string): string
    requires pat != ""
    decreases |s|
  {
    if pat <= s then rep + Replace(s[|pat|..], pat, rep)
    else if s == "" then ""
    else [s[0]] + Replace(s[1..], pat, rep)
  }

  /** `pat in s`. */
  predicate Occurs(pat: string, s: string) {
    exists i | 0 <= i <= |s| :: pat <= s[i..]
  }

  /** Replacing a pattern that does not occur leaves the string as it is. */
  lemma {:induction false} ReplaceAbsent(s: string, pat: string, rep: string)
    requires pat != "" && !Occurs(pat, s)
    ensures Replace(s, pat, rep) == s
  {
    assert !(pat <= s[0..]);
    if s != "" {
      assert !Occurs(pat, s[1..]) by {
        forall i | 0 <= i <= |s[1..]| ensures !(pat <= s[1..][i..]) {
          assert s[1..][i..] == s[i + 1..];
        }
      }
      ReplaceAbsent(s[1..], pat, rep);
      assert [s[0]] + s[1..] == s;
    }
  }

  /** A pattern whose first character is missing from `s` does not occur in it. */
  lemma AbsentByFirstChar(pat: string, s: string)
    requires pat != "" && pat[0] !in s
    ensures !Occurs(pat, s)
  {
  }

  /** The methods of a Python `logging.Logger` that log one message. */
  const LoggerMethods: set<string> :=
    {"debug", "info", "warning", "warn", "error", "exception", "critical", "fatal"}

  /** The log levels the engine emits. */
  const EngineLevels: set<string> := {"debug", "info", "alert", "warn", "error"}

  /** The logger method `getattr(logger, level.replace('warn', 'warning'), logger.info)`
      selects. */
  function LevelName(level: string): string {
    var name := Replace(level, "warn", "warning");
    if name in LoggerMethods then name else "info"
  }

  datatype LogEntry = LogEntry(level: string, msg: string)

  /** A call of the logger method `methodName` with the message `msg`. */
  datatype LoggerCall = LoggerCall(methodName: string, msg: string)

  /** `SendToLogger.log`: the message is forwarded unchanged, always to a
      method the logger has. */
  function Log(entry: LogEntry): (call: LoggerCall)
    ensures call.methodName in LoggerMethods
    ensures call.msg == entry.msg
  {
    LoggerCall(LevelName(entry.level), entry.msg)
  }

  /** The engine's `warn` level reaches the logger's `warning` method. */
  lemma WarnBecomesWarning()
    ensures LevelName("warn") == "warning"
  {
    assert "warn" <= "warn" && "warn"[|"warn"|..] == "";
    assert Replace("warn", "warn", "warning") == "warning";
    assert "warning" in LoggerMethods;
  }

  /** A level that names a logger method and does not contain `warn` is
      forwarded to that method. */
  lemma MethodLevelKept(level: string)
    requires level in LoggerMethods && !Occurs("warn", level)
    ensures LevelName(level) == level
  {
    ReplaceAbsent(level, "warn", "warning");
  }

  /** A level that names no logger method and does not contain `warn` falls
      back to `info`. */
  lemma UnknownLevelIsInfo(level: string)
    requires level !in LoggerMethods && !Occurs("warn", level)
    ensures LevelName(level) == "info"
  {
    ReplaceAbsent(level, "warn", "warning");
  }

  /** Where every level the engine emits ends up: `warn` at `warning`,
      `alert` at `info`, and the others at the method of the same name. */
  lemma EngineLevelMapping()
    ensures forall l | l in EngineLevels ::
              LevelName(l) == (if l == "warn" then "warning" else if l == "alert" then "info" else l)
  {
    forall l | l in EngineLevels
      ensures LevelName(l) == (if l == "warn" then "warning" else if l == "alert" then "info" else l)
    {
      if l == "warn" {
        WarnBecomesWarning();
      } else if l == "alert" {
        AlertIsInfo();
      } else if l == "debug" {
        AbsentByFirstChar("warn", "debug");
        MethodLevelKept("debug");
      } else if l == "info" {
        AbsentByFirstChar("warn", "info");
        MethodLevelKept("info");
      } else {
        assert l == "error";
        AbsentByFirstChar("warn", "error");
        MethodLevelKept("error");
      }
    }
  }

  /** The engine's `alert` level names no logger method and is logged at
      `info`. */
  lemma AlertIsInfo()
    ensures LevelName("alert") == "info"
  {
    AbsentByFirstChar("warn", "alert");
    UnknownLevelIsInfo("alert");
  }

  /** The rewrite is not idempotent: a level already spelled `warning`
      becomes `warninging`, which is no logger method, so it is logged at
      `info`. */
  lemma WarningLevelIsInfo()
    ensures Replace("warning", "warn", "warning") == "warninging"
    ensures LevelName("warning") == "info"
  {
    ReplaceAbsent("ing", "warn", "warning");
  }
}
