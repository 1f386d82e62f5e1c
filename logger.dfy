/**
 * The console logger: the configured level, the level filter, the line
 * format, and the metadata an error line carries.
 */
module Logger {
  import opened Values

  datatype LogLevel = Debug | Info | Warn | Error

  /** The `levels` array of `shouldLog`, least severe first. */
  const LEVELS: seq<LogLevel> := [Debug, Info, Warn, Error]
  const LEVEL_NAMES: seq<string> := ["debug", "info", "warn", "error"]

  function LevelName(level: LogLevel): string {
    match level
    case Debug => "debug"
    case Info => "info"
    case Warn => "warn"
    case Error => "error"
  }

  /** The severity order debug < info < warn < error, stated directly. */
  function Severity(level: LogLevel): nat {
    match level
    case Debug => 0
    case Info => 1
    case Warn => 2
    case Error => 3
  }

  /** `Array.prototype.indexOf`: the first position of `x` in `s`, or -1. */
  function IndexOf<T(==)>(s: seq<T>, x: T): (i: int)
    ensures -1 <= i < |s|
    ensures i == -1 <==> x !in s
    ensures 0 <= i ==> s[i] == x && x !in s[..i]
  {
    if |s| == 0 then -1
    else if s[0] == x then 0
    else
      var j := IndexOf(s[1..], x);
      if j == -1 then -1
      else
        assert s[..j + 1] == [s[0]] + s[1..][..j];
        j + 1
  }

  lemma IndexOfLevel(level: LogLevel)
    ensures IndexOf(LEVELS, level) == Severity(level)
  {
    assert LEVELS[0] == Debug && LEVELS[1] == Info && LEVELS[2] == Warn && LEVELS[3] == Error;
    assert LEVELS[..1] == [Debug] && LEVELS[..2] == [Debug, Info] && LEVELS[..3] == [Debug, Info, Warn];
  }

  // ---------------------------------------------------------------------------
  // Case mapping (ASCII letters)

  function LowerChar(c: char): char {
    if 'A' <= c <= 'Z' then (c as int + 32) as char else c
  }

  function UpperChar(c: char): char {
    if 'a' <= c <= 'z' then (c as int - 32) as char else c
  }

  /** `toLowerCase` */
  function ToLower(s: string): (r: string)
    ensures |r| == |s|
    ensures forall i | 0 <= i < |s| :: r[i] == LowerChar(s[i])
  {
    if s == [] then [] else [LowerChar(s[0])] + ToLower(s[1..])
  }

  /** `toUpperCase` */
  function ToUpper(s: string): (r: string)
    ensures |r| == |s|
    ensures forall i | 0 <= i < |s| :: r[i] == UpperChar(s[i])
  {
    if s == [] then [] else [UpperChar(s[0])] + ToUpper(s[1..])
  }

  predicate IsLowerWord(s: string) {
    forall i | 0 <= i < |s| :: 'a' <= s[i] <= 'z'
  }

  /** Lower-casing undoes upper-casing on a word of lower-case letters. */
  lemma LowerOfUpper(s: string)
    requires IsLowerWord(s)
    ensures ToLower(ToUpper(s)) == s
  {
    var r := ToLower(ToUpper(s));
    assert |r| == |s|;
    forall i | 0 <= i < |s|
      ensures r[i] == s[i]
    {
      assert ToUpper(s)[i] == UpperChar(s[i]);
    }
  }

  // ---------------------------------------------------------------------------
  // Configured level and filter

  /** The two environment variables the logger reads. */
  datatype LoggerEnv = LoggerEnv(logLevel: Option<string>, nodeEnv: Option<string>)

  function LevelNamed(name: string): (level: LogLevel)
    requires name in LEVEL_NAMES
    ensures LevelName(level) == name
  {
    if name == "debug" then Debug
    else if name == "info" then Info
    else if name == "warn" then Warn
    else Error
  }

  /** The level used when `LOG_LEVEL` is absent or names no level. */
  function FallbackLevel(env: LoggerEnv): LogLevel {
    if env.nodeEnv == Some("production") then Info else Debug
  }

  /** `getLogLevel` */
  function GetLogLevel(env: LoggerEnv): (level: LogLevel)
    ensures env.logLevel.Some? && ToLower(env.logLevel.value) in LEVEL_NAMES ==>
              LevelName(level) == ToLower(env.logLevel.value)
    ensures !(env.logLevel.Some? && ToLower(env.logLevel.value) in LEVEL_NAMES) ==>
              level == FallbackLevel(env)
  {
    var envLevel := if env.logLevel.Some? then Some(ToLower(env.logLevel.value)) else None;
    if Truthy(envLevel) && envLevel.value in LEVEL_NAMES then LevelNamed(envLevel.value)
    else FallbackLevel(env)
  }

  /** A level's name in any mix of cases selects that level. */
  lemma LevelNameAnyCase(env: LoggerEnv, s: string, level: LogLevel)
    requires ToLower(s) == LevelName(level)
    ensures GetLogLevel(env.(logLevel := Some(s))) == level
  {
  }

  lemma LevelNameLower(level: LogLevel)
    ensures IsLowerWord(LevelName(level))
  {
  }

  lemma UpperCaseLevelSelects(env: LoggerEnv, level: LogLevel)
    ensures GetLogLevel(env.(logLevel := Some(ToUpper(LevelName(level))))) == level
  {
    var name := LevelName(level);
    LevelNameLower(level);
    LowerOfUpper(name);
    LevelNameAnyCase(env, ToUpper(name), level);
  }

  /** `shouldLog`: emit a message iff it is at least as severe as the configured level. */
  function ShouldLog(level: LogLevel, env: LoggerEnv): (emit: bool)
    ensures emit <==> Severity(level) >= Severity(GetLogLevel(env))
  {
    IndexOfLevel(level);
    IndexOfLevel(GetLogLevel(env));
    IndexOf(LEVELS, level) >= IndexOf(LEVELS, GetLogLevel(env))
  }

  lemma ErrorAlwaysEmitted(env: LoggerEnv)
    ensures ShouldLog(Error, env)
  {
  }

  lemma ShouldLogMonotone(quieter: LogLevel, louder: LogLevel, env: LoggerEnv)
    requires Severity(quieter) <= Severity(louder)
    ensures ShouldLog(quieter, env) ==> ShouldLog(louder, env)
  {
  }

  // ---------------------------------------------------------------------------
  // Line format

  /** `[timestamp] [LEVEL]` */
  function Prefix(timestamp: string, level: LogLevel): string {
    "[" + timestamp + "] [" + ToUpper(LevelName(level)) + "]"
  }

  /**
   * `formatMessage`; `stringify` plays `JSON.stringify(meta, null, 2)` and
   * None is an `undefined` meta.
   */
  function FormatMessage(timestamp: string, level: LogLevel, message: string, meta: Option<Json>,
                         stringify: Json -> string): (line: string)
    ensures |Prefix(timestamp, level)| <= |line| && line[..|Prefix(timestamp, level)|] == Prefix(timestamp, level)
    ensures meta.None? ==> line == Prefix(timestamp, level) + " " + message
    ensures meta.Some? ==> line == Prefix(timestamp, level) + " " + message + " " + stringify(meta.value)
  {
    var prefix := Prefix(timestamp, level);
    if meta.Some? then prefix + " " + message + " " + stringify(meta.value)
    else prefix + " " + message
  }

  lemma LevelTags()
    ensures ToUpper(LevelName(Debug)) == "DEBUG"
    ensures ToUpper(LevelName(Info)) == "INFO"
    ensures ToUpper(LevelName(Warn)) == "WARN"
    ensures ToUpper(LevelName(Error)) == "ERROR"
  {
    assert ToUpper("debug") == "DEBUG";
    assert ToUpper("info") == "INFO";
    assert ToUpper("warn") == "WARN";
    assert ToUpper("error") == "ERROR";
  }

  /** `logger.debug`, `logger.info`, `logger.warn`: the console line, if any. */
  function Log(level: LogLevel, env: LoggerEnv, timestamp: string, message: string, meta: Option<Json>,
               stringify: Json -> string): (line: Option<string>)
    requires level != Error
    ensures line.Some? <==> Severity(level) >= Severity(GetLogLevel(env))
    ensures line.Some? ==> line.value == FormatMessage(timestamp, level, message, meta, stringify)
  {
    if ShouldLog(level, env) then Some(FormatMessage(timestamp, level, message, meta, stringify)) else None
  }

  // ---------------------------------------------------------------------------
  // Error lines

  /** `{...meta}` for an object meta; any other meta spreads to no keys here. */
  function SpreadObject(meta: Option<Json>): map<string, Json> {
    if meta.Some? && meta.value.JObj? then meta.value.fields else map[]
  }

  /** `{name, message, stack}` of an `Error`; an undefined stack is left out. */
  function ErrorJson(e: Thrown): Json
    requires e.IsError()
  {
    var base := map["name" := JStr(e.name), "message" := JStr(e.message)];
    JObj(if e.stack.Some? then base["stack" := JStr(e.stack.value)] else base)
  }

  /** The `errorMeta` record of `logger.error`. */
  function ErrorMeta(error: Option<Thrown>, meta: Option<Json>): (m: map<string, Json>)
    ensures m.Keys == SpreadObject(meta).Keys + (if error.Some? then {"error"} else {})
    ensures forall k | k in SpreadObject(meta) && k != "error" :: m[k] == SpreadObject(meta)[k]
    ensures error.Some? && error.value.IsError() ==> m["error"] == ErrorJson(error.value)
    ensures error.Some? && !error.value.IsError() ==> m["error"] == error.value.value
    ensures error.None? ==> m == SpreadObject(meta)
  {
    var copy := SpreadObject(meta);
    match error
    case None => copy
    case Some(e) => copy["error" := if e.IsError() then ErrorJson(e) else e.value]
  }

  /** `logger.error`: always emits, and always with a metadata suffix. */
  function LogError(env: LoggerEnv, timestamp: string, message: string, error: Option<Thrown>,
                    meta: Option<Json>, stringify: Json -> string): (line: Option<string>)
    ensures line.Some?
    ensures line.value == FormatMessage(timestamp, Error, message, Some(JObj(ErrorMeta(error, meta))), stringify)
  {
    if ShouldLog(Error, env) then
      Some(FormatMessage(timestamp, Error, message, Some(JObj(ErrorMeta(error, meta))), stringify))
    else None
  }
}
