/** src/index.ts: the level table, the transport list, the two line formats with the
    rule that chooses between them, and the five entry points of `getLogger`.
    The logging engine underneath (winston) is represented only by what the source
    relies on: merging the default metadata into each record, the per-transport level
    filter, and the console's colourised level. */
module Logging {
  import opened Js
  import opened Utils

  // ---------------------------------------------------------------- levels

  /** The five severities of `customLevels`. */
  datatype Level = Error | Warn | Audit | Info | Debug

  /** The key of the level in `customLevels.levels`. */
  function LevelName(l: Level): string
  {
    match l
    case Error => "error"
    case Warn => "warn"
    case Audit => "audit"
    case Info => "info"
    case Debug => "debug"
  }

  /** The numeric priority of `customLevels.levels`: lower is more severe. */
  function Priority(l: Level): (p: nat)
    ensures p < 5
  {
    match l
    case Error => 0
    case Warn => 1
    case Audit => 2
    case Info => 3
    case Debug => 4
  }

  /** Looks a level name up in `customLevels.levels`. */
  function ParseLevel(name: string): (r: Option<Level>)
    ensures r.Some? ==> LevelName(r.value) == name
  {
    if name == "error" then Some(Error)
    else if name == "warn" then Some(Warn)
    else if name == "audit" then Some(Audit)
    else if name == "info" then Some(Info)
    else if name == "debug" then Some(Debug)
    else None
  }

  /** Every level's name is found in the table under that level. */
  lemma ParseLevelName(l: Level)
    ensures ParseLevel(LevelName(l)) == Some(l)
  {
  }

  /** The priorities are strictly ordered error < warn < audit < info < debug, so
      distinct levels have distinct priorities. */
  lemma PriorityOrder(a: Level, b: Level)
    ensures Priority(Error) < Priority(Warn) < Priority(Audit) < Priority(Info) < Priority(Debug)
    ensures Priority(a) == Priority(b) <==> a == b
  {
  }

  /** The colour of `customLevels.colors`. */
  function Colour(l: Level): string
  {
    match l
    case Error => "red"
    case Warn => "yellow"
    case Audit => "blue"
    case Info => "green"
    case Debug => "grey"
  }

  /** The ANSI foreground code the console colourer uses for a colour. */
  function AnsiCode(colour: string): string
  {
    if colour == "red" then "31"
    else if colour == "yellow" then "33"
    else if colour == "blue" then "34"
    else if colour == "green" then "32"
    else "90"
  }

  /** The level text as the console transport's `format.colorize()` leaves it. */
  function Colourise(l: Level): string
  {
    "\U{1b}[" + AnsiCode(Colour(l)) + "m" + LevelName(l) + "\U{1b}[39m"
  }

  /** A transport whose level is `sinkLevel` passes a record of level `l` exactly when
      the table knows `sinkLevel` and its priority is not below that of `l`. */
  function Admits(sinkLevel: string, l: Level): bool
  {
    match ParseLevel(sinkLevel)
    case None => false
    case Some(s) => Priority(l) <= Priority(s)
  }

  /** Emit iff priority is at most the configured priority; so `debug` is dropped at
      `info`, while `audit` passes at both `info` and `debug`. */
  lemma AdmitsByPriority(configured: Level, l: Level)
    ensures Admits(LevelName(configured), l) <==> Priority(l) <= Priority(configured)
    ensures !Admits("info", Debug)
    ensures Admits("info", Audit) && Admits("debug", Audit)
    ensures Admits(LevelName(configured), Error)
  {
  }

  // ---------------------------------------------------------------- configuration and transports

  /** `IConfig`: the logger's configuration. The syslog fields are accepted and unused. */
  datatype Config = Config(
    hostname: string,
    environment: string,
    directory: Option<string>,
    fileName: Option<string>,
    serviceName: string,
    level: Option<string>,
    buildVersion: Option<string>,
    syslogServer: Option<string>,
    syslogPort: Option<int>)

  /** The options the source passes to the two transports it builds. */
  datatype Transport =
    | Console(level: string, handleExceptions: bool)
    | DailyRotateFile(
        level: string,
        dirname: Option<string>,
        filename: string,
        datePattern: string,
        zippedArchive: bool,
        maxFiles: string,
        utc: bool,
        handleExceptions: bool)

  function ConsoleTransport(config: Config): Transport
  {
    Console(Or(config.level, "debug"), true)
  }

  function FileTransport(config: Config): Transport
  {
    DailyRotateFile(Or(config.level, "info"), config.directory, Or(config.fileName, "log.%DATE%"),
                    "YYYY-MM-DD", true, "30d", true, true)
  }

  /** `getTransports(config)`: the console transport always, first; the daily file
      transport after it exactly when `directory` is truthy. */
  function GetTransports(config: Config): (ts: seq<Transport>)
    ensures |ts| == (if Truthy(config.directory) then 2 else 1)
    ensures ts[0].Console? && ts[0].handleExceptions
    ensures ts[0].level == (if Truthy(config.level) then config.level.value else "debug")
    ensures |ts| == 2 ==> ts[1].DailyRotateFile? && ts[1].dirname == config.directory
    ensures |ts| == 2 ==> ts[1].level == (if Truthy(config.level) then config.level.value else "info")
    ensures |ts| == 2 ==> ts[1].filename == (if Truthy(config.fileName) then config.fileName.value else "log.%DATE%")
    ensures |ts| == 2 ==> ts[1] == DailyRotateFile(ts[1].level, config.directory, ts[1].filename,
                                                   "YYYY-MM-DD", true, "30d", true, true)
  {
    AppendWhen(() => FileTransport(config), Truthy(config.directory), [ConsoleTransport(config)])
  }

  // ---------------------------------------------------------------- events and records

  /** What the source reads of an `Error`: its `message`, which may be missing. */
  datatype ErrorValue = ErrorValue(message: Option<string>)

  /** The metadata object an entry point passes to `logger.log`. */
  datatype Meta =
    | FunctionMeta(traceId: Option<string>, functionName: string, error: Option<ErrorValue>)
    | AuditMeta(traceId: Option<string>, user: string, displayName: string, data: Data)

  /** One `logger.log(level, message, meta)` call. */
  datatype Event = Event(level: Level, message: string, meta: Meta)

  /** The `defaultMeta` block of the logger. */
  datatype DefaultMeta = DefaultMeta(
    hostname: string,
    service: string,
    environment: string,
    functionName: string,
    buildVersion: Option<string>)

  /** The record a formatter sees. A property the record lacks (`user` on a standard
      record, say) is held as the empty text, which is how `join` prints it. */
  datatype Record = Record(
    timestamp: string,
    level: string,
    message: string,
    hostname: string,
    service: string,
    environment: string,
    buildVersion: Option<string>,
    traceId: Option<string>,
    functionName: string,
    error: Option<ErrorValue>,
    user: string,
    displayName: string,
    data: Data)

  /** The record built for event `e`: the default metadata overlaid with the call's
      metadata, the level text the transport's format left and the timestamp. */
  function ToRecord(defaults: DefaultMeta, timestamp: string, level: string, e: Event): Record
  {
    match e.meta
    case FunctionMeta(traceId, functionName, error) =>
      Record(timestamp, level, e.message, defaults.hostname, defaults.service, defaults.environment,
           defaults.buildVersion, traceId, functionName, error, "", "", Undefined)
    case AuditMeta(traceId, user, displayName, data) =>
      Record(timestamp, level, e.message, defaults.hostname, defaults.service, defaults.environment,
           defaults.buildVersion, traceId, defaults.functionName, None, user, displayName, data)
  }

  // ---------------------------------------------------------------- formatters

  /** The seven leading fields both formats share, with their defaults applied:
      `buildVersion ?? '0'` and `traceId || defaultUUID()`. */
  function HeaderFields(info: Record): seq<string>
  {
    [info.timestamp, info.environment, info.hostname, Coalesce(info.buildVersion, "0"),
     Or(info.traceId, DefaultUUID()), info.service, info.level]
  }

  /** The last field of a standard line: the message, with the error's message in
      brackets when an error is attached. */
  function FinalMessage(message: string, error: Option<ErrorValue>): string
  {
    match error
    case None => message
    case Some(err) => message + " [" + Coalesce(err.message, "") + "]"
  }

  /** The fields of a standard line. */
  function CommonFields(info: Record): seq<string>
  {
    HeaderFields(info) + [info.functionName, FinalMessage(info.message, info.error)]
  }

  /** `commonFormat(props)`. */
  function CommonFormat(info: Record): string
  {
    Join(CommonFields(info), "|")
  }

  /** The fields of an audit line: ten, and an eleventh, the stringified data, only
      when the data is truthy. */
  function AuditFields(info: Record): seq<string>
  {
    HeaderFields(info) + [info.user, info.displayName, info.message]
      + (if DataTruthy(info.data) then [Render(ToString(info.data))] else [])
  }

  /** `auditFormat(props)`: builds the ten fields, pushes the data when it is truthy and
      joins with '|'. */
  method AuditFormat(info: Record) returns (line: string)
    ensures line == Join(AuditFields(info), "|")
  {
    var bits := [
      info.timestamp,
      info.environment,
      info.hostname,
      Coalesce(info.buildVersion, "0"),
      Or(info.traceId, DefaultUUID()),
      info.service,
      info.level,
      info.user,
      info.displayName,
      info.message
    ];
    if DataTruthy(info.data) {
      bits := bits + [Render(ToString(info.data))];
    }
    assert bits == AuditFields(info);
    line := Join(bits, "|");
  }

  /** `isAuditLevel(level)`: the level text contains "audit" anywhere. */
  function IsAuditLevel(level: string): bool
  {
    Includes(level, "audit")
  }

  /** `customFormat`: the audit format for audit levels, the standard one otherwise.
      Whichever is chosen, the line opens with the same seven header fields. */
  function CustomFormat(info: Record): (line: string)
    ensures var head := Join(HeaderFields(info), "|") + "|";
      |head| <= |line| && line[..|head|] == head
  {
    var head := HeaderFields(info);
    var tail := if IsAuditLevel(info.level)
      then [info.user, info.displayName, info.message]
           + (if DataTruthy(info.data) then [Render(ToString(info.data))] else [])
      else [info.functionName, FinalMessage(info.message, info.error)];
    JoinAppend(head, tail, "|");
    assert IsAuditLevel(info.level) ==> head + tail == AuditFields(info);
    assert !IsAuditLevel(info.level) ==> head + tail == CommonFields(info);
    if IsAuditLevel(info.level) then Join(AuditFields(info), "|") else CommonFormat(info)
  }

  /** No field of the line is cut by the separator. */
  predicate PipeFree(fields: seq<string>)
  {
    forall i :: 0 <= i < |fields| ==> '|' !in fields[i]
  }

  /** A standard line splits into exactly nine fields, in order: timestamp, environment,
      hostname, buildVersion (`"0"` only when undefined), traceId (the Nil UUID when
      falsy), service, level, functionName and the message, which gains
      " [<error message>]" exactly when an error is attached. */
  lemma CommonFormatFields(info: Record)
    requires PipeFree(CommonFields(info))
    ensures var f := Split(CommonFormat(info), '|');
      && |f| == 9
      && f[0] == info.timestamp && f[1] == info.environment && f[2] == info.hostname
      && (info.buildVersion.None? ==> f[3] == "0")
      && (info.buildVersion.Some? ==> f[3] == info.buildVersion.value)
      && (Truthy(info.traceId) ==> f[4] == info.traceId.value)
      && (!Truthy(info.traceId) ==> f[4] == "00000000-0000-0000-0000-000000000000")
      && f[5] == info.service && f[6] == info.level && f[7] == info.functionName
      && (info.error.None? ==> f[8] == info.message)
      && (info.error.Some? && info.error.value.message.Some? ==>
            f[8] == info.message + " [" + info.error.value.message.value + "]")
      && (info.error.Some? && info.error.value.message.None? ==> f[8] == info.message + " []")
  {
    SplitJoin(CommonFields(info), '|');
  }

  /** An audit line splits into ten fields ending user, displayName, message, and into
      an eleventh, the stringified data, exactly when the data is truthy. */
  lemma AuditFormatFields(info: Record)
    requires PipeFree(AuditFields(info))
    ensures var f := Split(Join(AuditFields(info), "|"), '|');
      && |f| == (if DataTruthy(info.data) then 11 else 10)
      && f[..7] == HeaderFields(info)
      && (info.buildVersion.None? ==> f[3] == "0")
      && (!Truthy(info.traceId) ==> f[4] == "00000000-0000-0000-0000-000000000000")
      && f[7] == info.user && f[8] == info.displayName && f[9] == info.message
      && (info.data.Text? && info.data.text != "" ==> f[10] == info.data.text)
      && (info.data.Object? ==> f[10] == info.data.json)
  {
    SplitJoin(AuditFields(info), '|');
  }

  /** Only the audit level selects the audit format, whether its text is plain or
      colourised; the other four never do. */
  lemma AuditSelection(l: Level)
    ensures IsAuditLevel(LevelName(l)) <==> l == Audit
    ensures IsAuditLevel(Colourise(l)) <==> l == Audit
  {
    if l == Audit {
      IncludesInside("", "audit", "");
      assert "" + "audit" + "" == LevelName(l);
      IncludesInside("\U{1b}[" + AnsiCode(Colour(l)) + "m", "audit", "\U{1b}[39m");
    } else {
      assert 't' !in LevelName(l);
      MissingCharExcludes(LevelName(l), "audit", 't');
      assert 't' !in AnsiCode(Colour(l));
      assert 't' !in Colourise(l);
      MissingCharExcludes(Colourise(l), "audit", 't');
    }
  }

  /** Any text wrapped around "audit" still selects the audit format. */
  lemma WrappedAuditSelected(prefix: string, suffix: string)
    ensures IsAuditLevel(prefix + "audit" + suffix)
  {
    IncludesInside(prefix, "audit", suffix);
  }

  // ---------------------------------------------------------------- the logger and its output

  /** The logger `getLogger` returns: its default metadata and its transports. Each of
      the five entry points stands for one complete call and yields the
      `logger.log(level, message, meta)` call it makes. */
  datatype Logger = Logger(defaultMeta: DefaultMeta, transports: seq<Transport>)
  {
    function Debug(traceId: Option<string>, functionName: string, message: string): Event
    {
      Event(Level.Debug, message, FunctionMeta(traceId, functionName, None))
    }

    function Warn(traceId: Option<string>, functionName: string, message: string): Event
    {
      Event(Level.Warn, message, FunctionMeta(traceId, functionName, None))
    }

    function Info(traceId: Option<string>, functionName: string, message: string): Event
    {
      Event(Level.Info, message, FunctionMeta(traceId, functionName, None))
    }

    function Error(traceId: Option<string>, functionName: string, message: string, error: ErrorValue): Event
    {
      Event(Level.Error, message, FunctionMeta(traceId, functionName, Some(error)))
    }

    function Audit(traceId: Option<string>, user: string, displayName: string, message: string, data: Data): Event
    {
      Event(Level.Audit, message, AuditMeta(traceId, user, displayName, data))
    }
  }

  /** `getLogger(config)`: the transports of `getTransports` and the default metadata,
      whose `functionName` starts empty. */
  function GetLogger(config: Config): (logger: Logger)
    ensures logger.defaultMeta.service == config.serviceName && logger.defaultMeta.functionName == ""
    ensures logger.defaultMeta.hostname == config.hostname && logger.defaultMeta.environment == config.environment
    ensures logger.defaultMeta.buildVersion == config.buildVersion
    ensures logger.transports == GetTransports(config)
  {
    Logger(DefaultMeta(config.hostname, config.serviceName, config.environment, "", config.buildVersion),
           GetTransports(config))
  }

  /** The level text a transport's format leaves in the record: the console colourises it. */
  function LevelText(t: Transport, l: Level): string
  {
    if t.Console? then Colourise(l) else LevelName(l)
  }

  /** The line transport `t` writes for event `e`, stamped with `timestamp`. */
  function Line(defaults: DefaultMeta, t: Transport, timestamp: string, e: Event): string
  {
    CustomFormat(ToRecord(defaults, timestamp, LevelText(t, e.level), e))
  }

  /** The lines the transports `ts` write for `e`, in transport order: one from each
      transport whose level admits the event's level, none from the others. */
  function EmitTo(defaults: DefaultMeta, ts: seq<Transport>, timestamp: string, e: Event): (lines: seq<string>)
    ensures |lines| <= |ts|
    ensures (forall i :: 0 <= i < |ts| ==> !Admits(ts[i].level, e.level)) ==> lines == []
    ensures (forall i :: 0 <= i < |ts| ==> Admits(ts[i].level, e.level)) ==>
              |lines| == |ts| && forall i :: 0 <= i < |ts| ==> lines[i] == Line(defaults, ts[i], timestamp, e)
    decreases |ts|
  {
    if |ts| == 0 then []
    else
      (if Admits(ts[0].level, e.level) then [Line(defaults, ts[0], timestamp, e)] else [])
      + EmitTo(defaults, ts[1..], timestamp, e)
  }

  /** Every line written comes from a transport that admits the event: no transport
      writes an event its level filters out. */
  lemma {:induction false} EmittedLineAdmitted(defaults: DefaultMeta, ts: seq<Transport>, timestamp: string, e: Event, k: int)
    requires 0 <= k < |EmitTo(defaults, ts, timestamp, e)|
    ensures exists j :: 0 <= j < |ts| && Admits(ts[j].level, e.level)
                        && EmitTo(defaults, ts, timestamp, e)[k] == Line(defaults, ts[j], timestamp, e)
    decreases |ts|
  {
    var lines := EmitTo(defaults, ts, timestamp, e);
    var rest := EmitTo(defaults, ts[1..], timestamp, e);
    if Admits(ts[0].level, e.level) {
      assert lines == [Line(defaults, ts[0], timestamp, e)] + rest;
      if k == 0 {
        assert lines[k] == Line(defaults, ts[0], timestamp, e);
      } else {
        EmittedLineAdmitted(defaults, ts[1..], timestamp, e, k - 1);
        var j :| 0 <= j < |ts| - 1 && Admits(ts[1..][j].level, e.level)
                 && rest[k - 1] == Line(defaults, ts[1..][j], timestamp, e);
        assert lines[k] == rest[k - 1];
        assert ts[1..][j] == ts[j + 1];
      }
    } else {
      assert lines == rest;
      EmittedLineAdmitted(defaults, ts[1..], timestamp, e, k);
      var j :| 0 <= j < |ts| - 1 && Admits(ts[1..][j].level, e.level)
               && rest[k] == Line(defaults, ts[1..][j], timestamp, e);
      assert ts[1..][j] == ts[j + 1];
    }
  }

  /** What one or two transports write: each one's line, in order, when it admits the event. */
  lemma EmitToOneOrTwo(defaults: DefaultMeta, c: Transport, f: Transport, timestamp: string, e: Event)
    ensures EmitTo(defaults, [c], timestamp, e)
              == (if Admits(c.level, e.level) then [Line(defaults, c, timestamp, e)] else [])
    ensures EmitTo(defaults, [c, f], timestamp, e)
              == (if Admits(c.level, e.level) then [Line(defaults, c, timestamp, e)] else [])
                 + (if Admits(f.level, e.level) then [Line(defaults, f, timestamp, e)] else [])
  {
    assert [c][1..] == [];
    assert [c, f][1..] == [f];
    assert EmitTo(defaults, [f], timestamp, e)
             == (if Admits(f.level, e.level) then [Line(defaults, f, timestamp, e)] else []) + [];
  }

  /** The lines a call on `logger` writes. */
  function Emit(logger: Logger, timestamp: string, e: Event): seq<string>
  {
    EmitTo(logger.defaultMeta, logger.transports, timestamp, e)
  }

  /** `getLogger`'s logger writes at most two lines for a call: the console's, when the
      console's level admits the call, then the file's, when a directory is configured
      and the file's level admits the call. */
  lemma GetLoggerEmits(config: Config, timestamp: string, e: Event)
    ensures var logger := GetLogger(config);
      var console := ConsoleTransport(config);
      var file := FileTransport(config);
      Emit(logger, timestamp, e)
        == (if Admits(console.level, e.level) then [Line(logger.defaultMeta, console, timestamp, e)] else [])
           + (if Truthy(config.directory) && Admits(file.level, e.level)
              then [Line(logger.defaultMeta, file, timestamp, e)] else [])
  {
    var logger := GetLogger(config);
    EmitToOneOrTwo(logger.defaultMeta, ConsoleTransport(config), FileTransport(config), timestamp, e);
    if Truthy(config.directory) {
      assert logger.transports == [ConsoleTransport(config), FileTransport(config)];
    } else {
      assert logger.transports == [ConsoleTransport(config)];
    }
  }

  /** With no level configured the console is at `debug` and the file at `info`: a
      `debug` call goes to the console alone, every other call to every transport. */
  lemma DefaultLevels(config: Config, timestamp: string, traceId: Option<string>, functionName: string, message: string)
    requires !Truthy(config.level)
    ensures var logger := GetLogger(config);
      var e := logger.Debug(traceId, functionName, message);
      Emit(logger, timestamp, e) == [Line(logger.defaultMeta, ConsoleTransport(config), timestamp, e)]
    ensures forall l, i :: l != Level.Debug && 0 <= i < |GetTransports(config)| ==>
      Admits(GetTransports(config)[i].level, l)
  {
    var logger := GetLogger(config);
    assert ConsoleTransport(config).level == "debug" && FileTransport(config).level == "info";
    assert Admits("debug", Level.Debug) && !Admits("info", Level.Debug);
    GetLoggerEmits(config, timestamp, logger.Debug(traceId, functionName, message));
  }

  /** A logger configured at `info` writes nothing at all for a `debug` call. */
  lemma DebugDroppedAtInfo(config: Config, timestamp: string, traceId: Option<string>, functionName: string, message: string)
    requires config.level == Some("info")
    ensures var logger := GetLogger(config);
      Emit(logger, timestamp, logger.Debug(traceId, functionName, message)) == []
  {
  }

  /** A logger configured at `info` or `debug` writes an `audit` call to every transport. */
  lemma AuditPassesAtInfoAndDebug(config: Config, timestamp: string, traceId: Option<string>, user: string,
                                  displayName: string, message: string, data: Data)
    requires config.level == Some("info") || config.level == Some("debug")
    ensures var logger := GetLogger(config);
      |Emit(logger, timestamp, logger.Audit(traceId, user, displayName, message, data))| == |logger.transports|
  {
  }

  /** With a non-empty configured level, every transport takes that level. */
  lemma TransportsAtLevel(config: Config, name: string)
    requires config.level == Some(name) && name != ""
    ensures forall i :: 0 <= i < |GetTransports(config)| ==> GetTransports(config)[i].level == name
  {
  }

  /** Neither form of a level's text contains the separator. */
  lemma LevelTextPipeFree(t: Transport, l: Level)
    ensures '|' !in LevelText(t, l)
  {
    assert '|' !in AnsiCode(Colour(l)) && '|' !in LevelName(l);
  }

  /** A standard event's line, on any transport, splits back into the standard fields. */
  lemma StandardLineSplits(defaults: DefaultMeta, t: Transport, timestamp: string, e: Event)
    requires e.level != Level.Audit
    requires PipeFree(CommonFields(ToRecord(defaults, timestamp, LevelText(t, e.level), e)))
    ensures Split(Line(defaults, t, timestamp, e), '|') == CommonFields(ToRecord(defaults, timestamp, LevelText(t, e.level), e))
  {
    AuditSelection(e.level);
    SplitJoin(CommonFields(ToRecord(defaults, timestamp, LevelText(t, e.level), e)), '|');
  }

  /** The line of a standard event on transport `t`, field by field: the default tags,
      the trace id or the Nil UUID, the transport's level text, the function name and
      the final message. */
  lemma FunctionLineFields(defaults: DefaultMeta, t: Transport, timestamp: string, level: Level,
                           traceId: Option<string>, functionName: string, message: string, error: Option<ErrorValue>)
    requires level != Level.Audit
    requires PipeFree([timestamp, defaults.environment, defaults.hostname, Coalesce(defaults.buildVersion, "0"),
                       Or(traceId, NilUuid), defaults.service, functionName, FinalMessage(message, error)])
    ensures Split(Line(defaults, t, timestamp, Event(level, message, FunctionMeta(traceId, functionName, error))), '|')
              == [timestamp, defaults.environment, defaults.hostname, Coalesce(defaults.buildVersion, "0"),
                  Or(traceId, NilUuid), defaults.service, LevelText(t, level), functionName, FinalMessage(message, error)]
    ensures var line := Line(defaults, t, timestamp, Event(level, message, FunctionMeta(traceId, functionName, error)));
      |Split(line, '|')| == 9 && Split(line, '|')[4] == Or(traceId, NilUuid)
  {
    var e := Event(level, message, FunctionMeta(traceId, functionName, error));
    var tags := [timestamp, defaults.environment, defaults.hostname, Coalesce(defaults.buildVersion, "0"),
                 Or(traceId, NilUuid), defaults.service, functionName, FinalMessage(message, error)];
    var fields := [timestamp, defaults.environment, defaults.hostname, Coalesce(defaults.buildVersion, "0"),
                   Or(traceId, NilUuid), defaults.service, LevelText(t, level), functionName, FinalMessage(message, error)];
    LevelTextPipeFree(t, level);
    forall k | 0 <= k < |fields|
      ensures '|' !in fields[k]
    {
      if k < 6 {
        assert fields[k] == tags[k];
      } else if k > 6 {
        assert fields[k] == tags[k - 1];
      }
    }
    assert CommonFields(ToRecord(defaults, timestamp, LevelText(t, level), e)) == fields;
    StandardLineSplits(defaults, t, timestamp, e);
  }

  /** The `k`-th line a standard call writes has nine fields, the fifth being the
      call's trace id when truthy and the Nil UUID otherwise. */
  lemma EmittedLineTraceId(logger: Logger, timestamp: string, level: Level, traceId: Option<string>,
                           functionName: string, message: string, error: Option<ErrorValue>, k: int)
    requires level != Level.Audit
    requires PipeFree([timestamp, logger.defaultMeta.environment, logger.defaultMeta.hostname,
                       Coalesce(logger.defaultMeta.buildVersion, "0"), Or(traceId, NilUuid),
                       logger.defaultMeta.service, functionName, FinalMessage(message, error)])
    requires 0 <= k < |Emit(logger, timestamp, Event(level, message, FunctionMeta(traceId, functionName, error)))|
    ensures var line := Emit(logger, timestamp, Event(level, message, FunctionMeta(traceId, functionName, error)))[k];
      |Split(line, '|')| == 9 && Split(line, '|')[4] == Or(traceId, NilUuid)
  {
    var e := Event(level, message, FunctionMeta(traceId, functionName, error));
    EmittedLineAdmitted(logger.defaultMeta, logger.transports, timestamp, e, k);
    var j :| 0 <= j < |logger.transports| && Admits(logger.transports[j].level, e.level)
             && Emit(logger, timestamp, e)[k] == Line(logger.defaultMeta, logger.transports[j], timestamp, e);
    FunctionLineFields(logger.defaultMeta, logger.transports[j], timestamp, level, traceId, functionName, message, error);
  }

  /** The line a `debug`, `warn` or `info` call writes on a logger all of whose
      transports admit the call's level: on every transport, nine fields, the configured tags,
      `buildVersion` or "0", the trace id or the Nil UUID, the transport's level text,
      the function name and the message unchanged. */
  lemma StandardCallLines(config: Config, timestamp: string, level: Level,
                          traceId: Option<string>, functionName: string, message: string)
    requires level == Level.Debug || level == Level.Warn || level == Level.Info
    requires forall i :: 0 <= i < |GetTransports(config)| ==> Admits(GetTransports(config)[i].level, level)
    requires PipeFree([timestamp, config.environment, config.hostname, Coalesce(config.buildVersion, "0"),
                       Or(traceId, NilUuid), config.serviceName, functionName, message])
    ensures var logger := GetLogger(config);
      var e := Event(level, message, FunctionMeta(traceId, functionName, None));
      && (e == if level == Level.Debug then logger.Debug(traceId, functionName, message)
               else if level == Level.Warn then logger.Warn(traceId, functionName, message)
               else logger.Info(traceId, functionName, message))
      && |Emit(logger, timestamp, e)| == |logger.transports|
      && forall i :: 0 <= i < |logger.transports| ==>
           Split(Emit(logger, timestamp, e)[i], '|')
             == [timestamp, config.environment, config.hostname, Coalesce(config.buildVersion, "0"),
                 Or(traceId, NilUuid), config.serviceName, LevelText(logger.transports[i], level),
                 functionName, message]
  {
    var logger := GetLogger(config);
    var e := Event(level, message, FunctionMeta(traceId, functionName, None));
    forall i | 0 <= i < |logger.transports|
      ensures Split(Emit(logger, timestamp, e)[i], '|')
                == [timestamp, config.environment, config.hostname, Coalesce(config.buildVersion, "0"),
                    Or(traceId, NilUuid), config.serviceName, LevelText(logger.transports[i], level),
                    functionName, message]
    {
      FunctionLineFields(logger.defaultMeta, logger.transports[i], timestamp, level, traceId, functionName, message, None);
    }
  }


  /** The line an `error` call writes on a logger all of whose transports admit errors
      (every known level does, and so do both defaults): the standard nine fields, the last being the message followed by
      the error's message in brackets, or by " []" when the error has none. */
  lemma ErrorCallLines(config: Config, timestamp: string, traceId: Option<string>,
                       functionName: string, message: string, error: ErrorValue)
    requires forall i :: 0 <= i < |GetTransports(config)| ==> Admits(GetTransports(config)[i].level, Level.Error)
    requires PipeFree([timestamp, config.environment, config.hostname, Coalesce(config.buildVersion, "0"),
                       Or(traceId, NilUuid), config.serviceName, functionName,
                       message + " [" + Coalesce(error.message, "") + "]"])
    ensures var logger := GetLogger(config);
      var e := logger.Error(traceId, functionName, message, error);
      && |Emit(logger, timestamp, e)| == |logger.transports|
      && forall i :: 0 <= i < |logger.transports| ==>
           Split(Emit(logger, timestamp, e)[i], '|')
             == [timestamp, config.environment, config.hostname, Coalesce(config.buildVersion, "0"),
                 Or(traceId, NilUuid), config.serviceName, LevelText(logger.transports[i], Level.Error),
                 functionName, message + " [" + Coalesce(error.message, "") + "]"]
  {
    var logger := GetLogger(config);
    var e := logger.Error(traceId, functionName, message, error);
    forall i | 0 <= i < |logger.transports|
      ensures Split(Emit(logger, timestamp, e)[i], '|')
                == [timestamp, config.environment, config.hostname, Coalesce(config.buildVersion, "0"),
                    Or(traceId, NilUuid), config.serviceName, LevelText(logger.transports[i], Level.Error),
                    functionName, message + " [" + Coalesce(error.message, "") + "]"]
    {
      FunctionLineFields(logger.defaultMeta, logger.transports[i], timestamp, Level.Error, traceId, functionName,
                         message, Some(error));
    }
  }


  /** An audit event's line, on any transport, splits back into the audit fields. */
  lemma AuditLineSplits(defaults: DefaultMeta, t: Transport, timestamp: string, e: Event)
    requires e.level == Level.Audit
    requires PipeFree(AuditFields(ToRecord(defaults, timestamp, LevelText(t, e.level), e)))
    ensures Split(Line(defaults, t, timestamp, e), '|') == AuditFields(ToRecord(defaults, timestamp, LevelText(t, e.level), e))
  {
    AuditSelection(e.level);
    SplitJoin(AuditFields(ToRecord(defaults, timestamp, LevelText(t, e.level), e)), '|');
  }

  /** The line of an audit event on transport `t`, field by field: the default tags,
      the trace id or the Nil UUID, the transport's level text, user, displayName and
      message, and the data text when the data is truthy. */
  lemma AuditLineFields(defaults: DefaultMeta, t: Transport, timestamp: string, traceId: Option<string>,
                        user: string, displayName: string, message: string, data: Data)
    requires PipeFree([timestamp, defaults.environment, defaults.hostname, Coalesce(defaults.buildVersion, "0"),
                       Or(traceId, NilUuid), defaults.service, user, displayName, message, Render(ToString(data))])
    ensures Split(Line(defaults, t, timestamp, Event(Level.Audit, message, AuditMeta(traceId, user, displayName, data))), '|')
              == [timestamp, defaults.environment, defaults.hostname, Coalesce(defaults.buildVersion, "0"),
                  Or(traceId, NilUuid), defaults.service, LevelText(t, Level.Audit), user, displayName, message]
                 + (if DataTruthy(data) then [Render(ToString(data))] else [])
  {
    var e := Event(Level.Audit, message, AuditMeta(traceId, user, displayName, data));
    var extra := if DataTruthy(data) then [Render(ToString(data))] else [];
    var tags := [timestamp, defaults.environment, defaults.hostname, Coalesce(defaults.buildVersion, "0"),
                 Or(traceId, NilUuid), defaults.service, user, displayName, message, Render(ToString(data))];
    var fields := [timestamp, defaults.environment, defaults.hostname, Coalesce(defaults.buildVersion, "0"),
                   Or(traceId, NilUuid), defaults.service, LevelText(t, Level.Audit),
                   user, displayName, message] + extra;
    LevelTextPipeFree(t, Level.Audit);
    forall k | 0 <= k < |fields|
      ensures '|' !in fields[k]
    {
      if k < 6 {
        assert fields[k] == tags[k];
      } else if 6 < k < 10 {
        assert fields[k] == tags[k - 1];
      } else if k == 10 {
        assert fields[k] == tags[9];
      }
    }
    assert AuditFields(ToRecord(defaults, timestamp, LevelText(t, Level.Audit), e)) == fields;
    AuditLineSplits(defaults, t, timestamp, e);
  }

  /** The line an `audit` call writes on a logger all of whose transports admit audits
      (those at `audit`, `info` or `debug`, and both defaults): on every transport, ten fields ending user, displayName and message, and
      an eleventh, the stringified data, exactly when the data is truthy. */
  lemma AuditCallLines(config: Config, timestamp: string, traceId: Option<string>,
                       user: string, displayName: string, message: string, data: Data)
    requires forall i :: 0 <= i < |GetTransports(config)| ==> Admits(GetTransports(config)[i].level, Level.Audit)
    requires PipeFree([timestamp, config.environment, config.hostname, Coalesce(config.buildVersion, "0"),
                       Or(traceId, NilUuid), config.serviceName, user, displayName, message, Render(ToString(data))])
    ensures var logger := GetLogger(config);
      var e := logger.Audit(traceId, user, displayName, message, data);
      && |Emit(logger, timestamp, e)| == |logger.transports|
      && forall i :: 0 <= i < |logger.transports| ==>
           Split(Emit(logger, timestamp, e)[i], '|')
             == [timestamp, config.environment, config.hostname, Coalesce(config.buildVersion, "0"),
                 Or(traceId, NilUuid), config.serviceName, LevelText(logger.transports[i], Level.Audit),
                 user, displayName, message]
                + (if DataTruthy(data) then [Render(ToString(data))] else [])
  {
    var logger := GetLogger(config);
    var e := logger.Audit(traceId, user, displayName, message, data);
    forall i | 0 <= i < |logger.transports|
      ensures Split(Emit(logger, timestamp, e)[i], '|')
                == [timestamp, config.environment, config.hostname, Coalesce(config.buildVersion, "0"),
                    Or(traceId, NilUuid), config.serviceName, LevelText(logger.transports[i], Level.Audit),
                    user, displayName, message]
                   + (if DataTruthy(data) then [Render(ToString(data))] else [])
    {
      AuditLineFields(logger.defaultMeta, logger.transports[i], timestamp, traceId, user, displayName, message, data);
    }
  }


  /** With a directory configured at `info` and no build version, `info('trace2', 'fn2',
      'mess2')` writes to the file the fields test, hostname, 0, trace2, test-app, info,
      fn2 and mess2 after the timestamp, and a `debug` call writes nothing. */
  lemma InfoScenario(directory: string, timestamp: string)
    requires directory != "" && '|' !in timestamp
    ensures var config := Config("hostname", "test", Some(directory), None, "test-app", Some("info"), None, None, None);
      var logger := GetLogger(config);
      var lines := Emit(logger, timestamp, logger.Info(Some("trace2"), "fn2", "mess2"));
      && |lines| == 2
      && Split(lines[1], '|') == [timestamp, "test", "hostname", "0", "trace2", "test-app", "info", "fn2", "mess2"]
      && Emit(logger, timestamp, logger.Debug(None, "function-2", "my message")) == []
  {
    var config := Config("hostname", "test", Some(directory), None, "test-app", Some("info"), None, None, None);
    var ts := GetTransports(config);
    assert Admits("info", Level.Info);
    assert |ts| == 2 && ts[0].level == "info" && ts[1].level == "info";
    assert forall i :: 0 <= i < |ts| ==> Admits(ts[i].level, Level.Info);
    StandardCallLines(config, timestamp, Level.Info, Some("trace2"), "fn2", "mess2");
    DebugDroppedAtInfo(config, timestamp, None, "function-2", "my message");
  }

  /** The same logger's `audit('traceid', 'user', 'John Snow', 'logs in', data)` ends its
      file line with the data text for string data and with 'logs in' for undefined data. */
  lemma AuditScenario(directory: string, timestamp: string, data: Data)
    requires directory != "" && '|' !in timestamp
    requires data == Text("data: 5") || data == Undefined
    ensures var config := Config("hostname", "test", Some(directory), None, "test-app", Some("info"), None, None, None);
      var logger := GetLogger(config);
      var lines := Emit(logger, timestamp, logger.Audit(Some("traceid"), "user", "John Snow", "logs in", data));
      && |lines| == 2
      && Split(lines[1], '|') == [timestamp, "test", "hostname", "0", "traceid", "test-app", "audit", "user", "John Snow", "logs in"]
                                + (if data.Text? then ["data: 5"] else [])
  {
    var config := Config("hostname", "test", Some(directory), None, "test-app", Some("info"), None, None, None);
    var ts := GetTransports(config);
    assert Admits("info", Level.Audit);
    assert |ts| == 2 && ts[0].level == "info" && ts[1].level == "info";
    assert forall i :: 0 <= i < |ts| ==> Admits(ts[i].level, Level.Audit);
    AuditCallLines(config, timestamp, Some("traceid"), "user", "John Snow", "logs in", data);
  }
}
