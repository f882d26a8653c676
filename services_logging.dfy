/**
 * `Logger.configure` of `nagare/services/logging.py`: builds the
 * `{'version': 1, 'loggers': ..., 'handlers': ..., 'formatters': ...}`
 * record handed to `logging.config.dictConfig` from the application name,
 * the default `logger`/`handler`/`formatter` sections and the extra named
 * sections, and stores the application logger name as the facade's active
 * namespace.
 *
 * The record handed over is the result; the call to `dictConfig` is not
 * modelled. Python exceptions raised on the way become `Err` results.
 */
module ServicesLogging {
  import opened Wrappers
  import opened Text
  import NagareLog

  /** A configuration value as the sections hold it. */
  datatype Value = Str(s: string) | StrList(items: seq<string>) | Flag(b: bool) | Null

  /** One section (or the dict built from it): option name to value. */
  type Config = map<string, Value>

  /** One extra keyword section of `configure`, in the order it is iterated. */
  datatype Section = Section(name: string, config: Config)

  /** The exceptions `configure` can raise before reaching `dictConfig`. */
  datatype Error =
    | KeyError(key: string)             // a missing `class` or `qualname`
    | AttributeError(attribute: string) // `startswith` or `split` on a non-string

  datatype Result<T> = Ok(value: T) | Err(error: Error)

  /** The three registries keyed by name, as `configure` grows them. */
  datatype Maps = Maps(loggers: map<string, Config>, handlers: map<string, Config>, formatters: map<string, Config>)

  /** The record handed to `dictConfig`. */
  datatype Record = Record(version: int, loggers: map<string, Config>, handlers: map<string, Config>, formatters: map<string, Config>)

  /** Where one section lands: a key in each registry it is stored in, and the config stored. */
  datatype Routing = Routing(loggerKey: Option<string>, handlerKey: Option<string>, formatterKey: Option<string>, config: Config)

  const AppNamespace: string := "nagare.application."
  const DefaultHandlerClass: string := "logging.StreamHandler"
  const DefaultStream: string := "ext://sys.stderr"

  /** Python truthiness of a value. */
  predicate Truthy(v: Value)
    ensures !Truthy(v) <==> v in {Str(""), StrList([]), Flag(false), Null}
  {
    match v
    case Str(s) => s != ""
    case StrList(items) => items != []
    case Flag(b) => b
    case Null => false
  }

  /** `'nagare.application.' + app_logger` */
  function AppLoggerName(app: string): (n: string)
    ensures StartsWith(n, AppNamespace) && n[|AppNamespace|..] == app
  {
    AppNamespace + app
  }

  // ---------------------------------------------------------------------------
  // Lines 51-57: the default handler and the seeded registries

  /**
   * The default handler section after lines 51-53: a missing `class` raises;
   * a falsy `class` is replaced by the stream handler, which writes to the
   * standard error stream unless a `stream` is already given; a truthy one
   * leaves the section alone.
   */
  function FillDefaultHandler(handler: Config): (r: Result<Config>)
    ensures "class" !in handler ==> r == Err(KeyError("class"))
    ensures "class" in handler && Truthy(handler["class"]) ==> r == Ok(handler)
    ensures "class" in handler && !Truthy(handler["class"]) ==>
      && r.Ok?
      && r.value.Keys == handler.Keys + {"stream"}
      && r.value["class"] == Str(DefaultHandlerClass)
      && r.value["stream"] == (if "stream" in handler then handler["stream"] else Str(DefaultStream))
      && forall k :: k in handler && k != "class" ==> r.value[k] == handler[k]
    ensures r.Ok? ==> Truthy(r.value["class"])
  {
    if "class" !in handler then Err(KeyError("class"))
    else if Truthy(handler["class"]) then Ok(handler)
    else
      var h := handler["class" := Str(DefaultHandlerClass)];
      Ok(if "stream" in h then h else h["stream" := Str(DefaultStream)])
  }

  /**
   * The registries before any extra section (lines 55-57): one entry each,
   * keyed by the application logger name; the logger gets that name as its
   * only handler, the handler gets it as its formatter.
   */
  function Seed(n: string, logger: Config, handler: Config, formatter: Config): (m: Maps)
    ensures m.loggers.Keys == {n} && m.handlers.Keys == {n} && m.formatters.Keys == {n}
    ensures m.loggers[n].Keys == logger.Keys + {"handlers"} && m.loggers[n]["handlers"] == StrList([n])
    ensures forall k :: k in logger && k != "handlers" ==> m.loggers[n][k] == logger[k]
    ensures m.handlers[n].Keys == handler.Keys + {"formatter"} && m.handlers[n]["formatter"] == Str(n)
    ensures forall k :: k in handler && k != "formatter" ==> m.handlers[n][k] == handler[k]
    ensures m.formatters[n] == formatter
  {
    Maps(map[n := logger["handlers" := StrList([n])]],
         map[n := handler["formatter" := Str(n)]],
         map[n := formatter])
  }

  // ---------------------------------------------------------------------------
  // Lines 59-77: one extra section

  /** Lines 62-63: a qualname starting with a dot is appended to the application logger name. */
  function ResolveQualname(n: string, q: string): (key: string)
    ensures StartsWith(q, ".") ==> StartsWith(key, n) && key[|n|..] == q
    ensures !StartsWith(q, ".") ==> key == q
  {
    if StartsWith(q, ".") then n + q else q
  }

  /** Line 65: `propagate` is true exactly when absent or the string `'1'`. */
  predicate Propagates(config: Config)
    ensures Propagates(config) <==> (if "propagate" in config then config["propagate"] else Str("1")) == Str("1")
  {
    "propagate" !in config || config["propagate"] == Str("1")
  }

  /** Lines 65-69 on a logger section whose qualname is already popped. */
  function CoerceLogger(config: Config): (r: Result<Config>)
    ensures r.Err? <==> "handlers" in config && Truthy(config["handlers"]) && !config["handlers"].Str?
    ensures r.Err? ==> r == Err(AttributeError("split"))
    ensures r.Ok? ==>
      && r.value.Keys == config.Keys + {"propagate"}
      && r.value["propagate"] == Flag(Propagates(config))
      && ("handlers" in config && Truthy(config["handlers"]) ==>
            r.value["handlers"] == StrList(Split(config["handlers"].s, ',')))
      && forall k :: k in config && k != "propagate" && (k == "handlers" ==> !Truthy(config[k])) ==> r.value[k] == config[k]
  {
    var c := config["propagate" := Flag(Propagates(config))];
    if "handlers" in c && Truthy(c["handlers"]) then
      if c["handlers"].Str? then Ok(c["handlers" := StrList(Split(c["handlers"].s, ','))])
      else Err(AttributeError("split"))
    else Ok(c)
  }

  /**
   * Lines 71-77 for a section whose (possibly reassigned) name is `key`: a
   * logger section is stored under `key`; then, whatever the section was,
   * `key` is tested for the `handler_` and `formatter_` prefixes.
   */
  function Targets(isLogger: bool, key: string, config: Config): (r: Routing)
    ensures r.config == config
    ensures r.loggerKey.Some? <==> isLogger
    ensures isLogger ==> r.loggerKey.value == key
    ensures r.handlerKey.Some? <==> StartsWith(key, "handler_")
    ensures r.handlerKey.Some? ==> "handler_" + r.handlerKey.value == key
    ensures r.formatterKey.Some? <==> StartsWith(key, "formatter_")
    ensures r.formatterKey.Some? ==> "formatter_" + r.formatterKey.value == key
  {
    Routing(if isLogger then Some(key) else None,
            if StartsWith(key, "handler_") then Some(key[8..]) else None,
            if StartsWith(key, "formatter_") then Some(key[10..]) else None,
            config)
  }

  /** One pass of the loop body (lines 60-77) on section `name` with `config`. */
  function Route(n: string, name: string, config: Config): (r: Result<Routing>)
    ensures !StartsWith(name, "logger_") ==> r.Ok? && r.value.loggerKey == None && r.value.config == config
    ensures StartsWith(name, "logger_") && r.Ok? ==>
      && "qualname" in config && config["qualname"].Str?
      && r.value.loggerKey == Some(ResolveQualname(n, config["qualname"].s))
      && "qualname" !in r.value.config
  {
    if StartsWith(name, "logger_") then
      if "qualname" !in config then Err(KeyError("qualname"))
      else if !config["qualname"].Str? then Err(AttributeError("startswith"))
      else
        match CoerceLogger(config - {"qualname"})
        case Err(e) => Err(e)
        case Ok(c) => Ok(Targets(true, ResolveQualname(n, config["qualname"].s), c))
    else Ok(Targets(false, name, config))
  }

  /** Storing one routed section into the registries. */
  function Apply(m: Maps, r: Routing): (m': Maps)
    ensures m'.loggers.Keys == m.loggers.Keys + (if r.loggerKey.Some? then {r.loggerKey.value} else {})
    ensures r.loggerKey.Some? ==> m'.loggers[r.loggerKey.value] == r.config
    ensures forall k :: k in m.loggers && r.loggerKey != Some(k) ==> m'.loggers[k] == m.loggers[k]
    ensures m'.handlers.Keys == m.handlers.Keys + (if r.handlerKey.Some? then {r.handlerKey.value} else {})
    ensures r.handlerKey.Some? ==> m'.handlers[r.handlerKey.value] == r.config
    ensures forall k :: k in m.handlers && r.handlerKey != Some(k) ==> m'.handlers[k] == m.handlers[k]
    ensures m'.formatters.Keys == m.formatters.Keys + (if r.formatterKey.Some? then {r.formatterKey.value} else {})
    ensures r.formatterKey.Some? ==> m'.formatters[r.formatterKey.value] == r.config
    ensures forall k :: k in m.formatters && r.formatterKey != Some(k) ==> m'.formatters[k] == m.formatters[k]
  {
    Maps(if r.loggerKey.Some? then m.loggers[r.loggerKey.value := r.config] else m.loggers,
         if r.handlerKey.Some? then m.handlers[r.handlerKey.value := r.config] else m.handlers,
         if r.formatterKey.Some? then m.formatters[r.formatterKey.value := r.config] else m.formatters)
  }

  /** The loop of lines 59-77 over `sections`, from `seed`; the first failing section's error. */
  function Build(n: string, seed: Maps, sections: seq<Section>): (r: Result<Maps>)
    ensures r.Ok? ==>
      && seed.loggers.Keys <= r.value.loggers.Keys
      && seed.handlers.Keys <= r.value.handlers.Keys
      && seed.formatters.Keys <= r.value.formatters.Keys
    decreases |sections|
  {
    if sections == [] then Ok(seed)
    else
      match Build(n, seed, sections[..|sections| - 1])
      case Err(e) => Err(e)
      case Ok(m) =>
        var last := sections[|sections| - 1];
        match Route(n, last.name, last.config)
        case Err(e) => Err(e)
        case Ok(r) => Ok(Apply(m, r))
  }

  /** What `configure` hands to `dictConfig` (lines 47-85), or the exception it raises. */
  function Configured(app: string, logger: Config, handler: Config, formatter: Config, sections: seq<Section>): (r: Result<Record>)
    ensures "class" !in handler ==> r == Err(KeyError("class"))
    ensures r.Ok? ==>
      && r.value.version == 1
      && AppLoggerName(app) in r.value.loggers
      && AppLoggerName(app) in r.value.handlers
      && AppLoggerName(app) in r.value.formatters
  {
    var n := AppLoggerName(app);
    match FillDefaultHandler(handler)
    case Err(e) => Err(e)
    case Ok(h) =>
      match Build(n, Seed(n, logger, h, formatter), sections)
      case Err(e) => Err(e)
      case Ok(m) => Ok(Record(1, m.loggers, m.handlers, m.formatters))
  }

  /** An error in a prefix of the sections is the error of the whole loop. */
  lemma {:induction false} BuildErrPersists(n: string, seed: Maps, sections: seq<Section>, j: nat, e: Error)
    requires j <= |sections|
    requires Build(n, seed, sections[..j]) == Err(e)
    ensures Build(n, seed, sections) == Err(e)
    decreases |sections| - j
  {
    if j < |sections| {
      assert sections[..j + 1][..j] == sections[..j];
      BuildErrPersists(n, seed, sections, j + 1, e);
    } else {
      assert sections[..j] == sections;
    }
  }

  // ---------------------------------------------------------------------------
  // The imperative code

  /**
   * The loop of lines 59-77: each section's config is rewritten in place and
   * stored in the registries, later entries replacing earlier ones.
   */
  method CollectSections(loggerName: string, seed: Maps, sections: seq<Section>) returns (r: Result<Maps>)
    ensures r == Build(loggerName, seed, sections)
  {
    var loggers, handlers, formatters := seed.loggers, seed.handlers, seed.formatters;
    var i := 0;
    while i < |sections|
      invariant 0 <= i <= |sections|
      invariant Build(loggerName, seed, sections[..i]) == Ok(Maps(loggers, handlers, formatters))
    {
      var name, config := sections[i].name, sections[i].config;
      assert sections[..i + 1][..i] == sections[..i];
      var isLogger := StartsWith(name, "logger_");
      if isLogger {
        if "qualname" !in config {
          BuildErrPersists(loggerName, seed, sections, i + 1, KeyError("qualname"));
          return Err(KeyError("qualname"));
        }
        var qualname := config["qualname"];
        config := config - {"qualname"};
        if !qualname.Str? {
          BuildErrPersists(loggerName, seed, sections, i + 1, AttributeError("startswith"));
          return Err(AttributeError("startswith"));
        }
        name := qualname.s;
        if StartsWith(name, ".") {
          name := loggerName + name;
        }
        config := config["propagate" := Flag(Propagates(config))];
        var handler := if "handlers" in config then config["handlers"] else Null;
        if Truthy(handler) {
          if !handler.Str? {
            BuildErrPersists(loggerName, seed, sections, i + 1, AttributeError("split"));
            return Err(AttributeError("split"));
          }
          config := config["handlers" := StrList(Split(handler.s, ','))];
        }
        loggers := loggers[name := config];
      }
      if StartsWith(name, "handler_") {
        handlers := handlers[name[8..] := config];
      }
      if StartsWith(name, "formatter_") {
        formatters := formatters[name[10..] := config];
      }
      assert Route(loggerName, sections[i].name, sections[i].config) == Ok(Targets(isLogger, name, config));
      i := i + 1;
    }
    assert sections[..i] == sections;
    r := Ok(Maps(loggers, handlers, formatters));
  }

  /**
   * `Logger.configure` (lines 47-85): sets the facade's namespace first, so
   * that it is set even when a later step raises, then returns the record
   * handed to `dictConfig`.
   */
  method Configure(ns: NagareLog.LogNamespace, app: string, logger: Config, handler: Config, formatter: Config, sections: seq<Section>)
    returns (r: Result<Record>)
    modifies ns
    ensures ns.loggerName == Some(AppLoggerName(app))
    ensures r == Configured(app, logger, handler, formatter, sections)
  {
    var loggerName := AppNamespace + app;
    ns.SetLogger(Some(loggerName));

    var h := handler;
    if "class" !in h {
      return Err(KeyError("class"));
    }
    if !Truthy(h["class"]) {
      h := h["class" := Str(DefaultHandlerClass)];
      if "stream" !in h {
        h := h["stream" := Str(DefaultStream)];
      }
    }

    var loggers := map[loggerName := logger["handlers" := StrList([loggerName])]];
    var handlers := map[loggerName := h["formatter" := Str(loggerName)]];
    var formatters := map[loggerName := formatter];

    var built := CollectSections(loggerName, Maps(loggers, handlers, formatters), sections);
    match built
    case Err(e) =>
      r := Err(e);
    case Ok(m) =>
      r := Ok(Record(1, m.loggers, m.handlers, m.formatters));
  }
}
