/**
 * What `Logger.configure` guarantees about the record it hands over: how
 * each section is routed, which keys the three registries end up with, that
 * a later section replaces an earlier entry, and when the whole call raises.
 */
module LoggingProperties {
  import opened Wrappers
  import opened Text
  import opened ServicesLogging
  import NagareLog

  /** The three registries of the record. */
  datatype Registry = Loggers | Handlers | Formatters

  function KeyIn(r: Routing, g: Registry): Option<string>
  {
    match g
    case Loggers => r.loggerKey
    case Handlers => r.handlerKey
    case Formatters => r.formatterKey
  }

  function Entries(m: Maps, g: Registry): map<string, Config>
  {
    match g
    case Loggers => m.loggers
    case Handlers => m.handlers
    case Formatters => m.formatters
  }

  function RecordEntries(rec: Record, g: Registry): map<string, Config>
  {
    match g
    case Loggers => rec.loggers
    case Handlers => rec.handlers
    case Formatters => rec.formatters
  }

  /** Section `s` is stored in registry `g` under key `k`. */
  predicate Writes(n: string, s: Section, g: Registry, k: string)
  {
    var r := Route(n, s.name, s.config);
    r.Ok? && KeyIn(r.value, g) == Some(k)
  }

  predicate RoutesOk(n: string, s: Section)
  {
    Route(n, s.name, s.config).Ok?
  }

  // ---------------------------------------------------------------------------
  // The application logger name and the default handler

  /** Distinct applications get distinct application loggers. */
  lemma AppLoggerNameInjective(a: string, b: string)
    requires AppLoggerName(a) == AppLoggerName(b)
    ensures a == b
  {
    assert a == AppLoggerName(a)[|AppNamespace|..];
  }

  /** Filling in the default handler twice is filling it in once. */
  lemma FillDefaultHandlerIdempotent(handler: Config)
    requires FillDefaultHandler(handler).Ok?
    ensures FillDefaultHandler(FillDefaultHandler(handler).value) == FillDefaultHandler(handler)
  {
  }

  // ---------------------------------------------------------------------------
  // One section

  /** A section raises exactly when it is a logger section with a bad `qualname` or `handlers`. */
  lemma RouteFails(n: string, name: string, c: Config)
    ensures Route(n, name, c).Err? <==>
      && StartsWith(name, "logger_")
      && ("qualname" !in c || !c["qualname"].Str? || ("handlers" in c && Truthy(c["handlers"]) && !c["handlers"].Str?))
    ensures StartsWith(name, "logger_") && "qualname" !in c ==> Route(n, name, c) == Err(KeyError("qualname"))
  {
  }

  /**
   * A logger section that does not raise: its popped `qualname`, resolved
   * against the application logger name, is its key; `propagate` becomes a
   * flag; a non-empty `handlers` string becomes the list of its parts; every
   * other option is kept; and the resolved key, not the section name, is
   * tested for the handler and formatter prefixes.
   */
  lemma LoggerSectionRouting(n: string, name: string, c: Config)
    requires StartsWith(name, "logger_") && Route(n, name, c).Ok?
    ensures "qualname" in c && c["qualname"].Str?
    ensures var r := Route(n, name, c).value;
      var key := ResolveQualname(n, c["qualname"].s);
      && r.loggerKey == Some(key)
      && r.handlerKey == (if StartsWith(key, "handler_") then Some(key[8..]) else None)
      && r.formatterKey == (if StartsWith(key, "formatter_") then Some(key[10..]) else None)
      && r.config.Keys == c.Keys - {"qualname"} + {"propagate"}
      && (r.config["propagate"] == Flag(true) <==> "propagate" !in c || c["propagate"] == Str("1"))
      && r.config["propagate"].Flag?
      && (forall k :: k in c && k !in {"qualname", "propagate", "handlers"} ==> r.config[k] == c[k])
      && ("handlers" in c && Truthy(c["handlers"]) ==>
            && r.config["handlers"] == StrList(Split(c["handlers"].s, ','))
            && Join(r.config["handlers"].items, ',') == c["handlers"].s)
      && ("handlers" in c && !Truthy(c["handlers"]) ==> r.config["handlers"] == c["handlers"])
  {
    if "handlers" in c && Truthy(c["handlers"]) {
      JoinSplit(c["handlers"].s, ',');
    }
  }

  /** A section that is not a logger section is stored as given, keyed by its name minus the prefix. */
  lemma OtherSectionRouting(n: string, name: string, c: Config)
    requires !StartsWith(name, "logger_")
    ensures Route(n, name, c).Ok?
    ensures var r := Route(n, name, c).value;
      && r.loggerKey == None && r.config == c
      && (StartsWith(name, "handler_") <==> r.handlerKey.Some?)
      && (r.handlerKey.Some? ==> "handler_" + r.handlerKey.value == name)
      && (StartsWith(name, "formatter_") <==> r.formatterKey.Some?)
      && (r.formatterKey.Some? ==> "formatter_" + r.formatterKey.value == name)
  {
    var r := Route(n, name, c).value;
    if r.handlerKey.Some? {
      assert name == name[..8] + name[8..];
    }
    if r.formatterKey.Some? {
      assert name == name[..10] + name[10..];
    }
  }

  /** A section matching none of the three prefixes leaves the registries as they were. */
  lemma UnmatchedSectionIgnored(n: string, m: Maps, name: string, c: Config)
    requires !StartsWith(name, "logger_") && !StartsWith(name, "handler_") && !StartsWith(name, "formatter_")
    ensures Route(n, name, c).Ok? && Apply(m, Route(n, name, c).value) == m
  {
  }

  /**
   * An illustration of `LoggerSectionRouting`: the prefix tests after line 71
   * apply to the resolved qualname, so one section lands in two registries.
   */
  lemma QualnameRoutesToHandlers(n: string)
    ensures Route(n, "logger_x", map["qualname" := Str("handler_y")])
         == Ok(Routing(Some("handler_y"), Some("y"), None, map["propagate" := Flag(true)]))
  {
    assert StartsWith("logger_x", "logger_");
    assert StartsWith("handler_y", "handler_");
    assert !StartsWith("handler_y", "formatter_");
    assert "handler_y"[..1][0] == 'h';
    assert map["qualname" := Str("handler_y")] - {"qualname"} == map[];
  }

  /**
   * A relative qualname `q` is appended to the application logger name, and
   * that key is the name the facade resolves `q` to exactly when `q` does not
   * end with a dot: `".x."` is stored as `n + ".x."`, the facade gives `n + ".x"`.
   */
  lemma RelativeQualnameVsFacade(app: string, q: string)
    requires StartsWith(q, ".")
    ensures ResolveQualname(AppLoggerName(app), q) == AppLoggerName(app) + q
    ensures ResolveQualname(AppLoggerName(app), q) == NagareLog.ResolveName(Some(AppLoggerName(app)), Some(q))
        <==> EndsWithout(q, '.')
  {
    var n := AppLoggerName(app);
    var key := n + q;
    assert key[|key| - 1] == q[|q| - 1];
    if EndsWithout(q, '.') {
      RStripUnique(key, '.', key);
    } else {
      assert !EndsWithout(key, '.');
    }
  }

  /**
   * The qualname `"."` is not stripped: it gives the key `n + "."`, which is
   * not the name the facade resolves `"."` to when `n` has no trailing dot.
   */
  lemma DotQualnameKeepsTheDot(app: string)
    requires app != "" && EndsWithout(app, '.')
    ensures ResolveQualname(AppLoggerName(app), ".") == AppLoggerName(app) + "."
    ensures NagareLog.ResolveName(Some(AppLoggerName(app)), Some(".")) == AppLoggerName(app)
  {
    var n := AppLoggerName(app);
    assert StartsWith(".", ".");
    RStripAppend(n, '.');
    assert n[|n| - 1] == app[|app| - 1];
    RStripUnique(n, '.', n);
  }

  // ---------------------------------------------------------------------------
  // The loop over all sections

  /** Unfolding one step of the loop. */
  lemma BuildStep(n: string, seed: Maps, sections: seq<Section>, m: Maps)
    requires sections != [] && Build(n, seed, sections) == Ok(m)
    ensures var last := sections[|sections| - 1];
      && Build(n, seed, sections[..|sections| - 1]).Ok?
      && Route(n, last.name, last.config).Ok?
      && m == Apply(Build(n, seed, sections[..|sections| - 1]).value, Route(n, last.name, last.config).value)
  {
  }

  /** The loop finishes exactly when no section raises. */
  lemma {:induction false} BuildOkIff(n: string, seed: Maps, sections: seq<Section>)
    ensures Build(n, seed, sections).Ok? <==> forall i :: 0 <= i < |sections| ==> RoutesOk(n, sections[i])
    decreases |sections|
  {
    if sections != [] {
      var front := sections[..|sections| - 1];
      BuildOkIff(n, seed, front);
      assert forall i :: 0 <= i < |front| ==> front[i] == sections[i];
    }
  }

  /** When the loop raises, it raises the error of the first section that fails. */
  lemma {:induction false} BuildFirstError(n: string, seed: Maps, sections: seq<Section>, e: Error)
    requires Build(n, seed, sections) == Err(e)
    ensures exists i :: 0 <= i < |sections| && Route(n, sections[i].name, sections[i].config) == Err(e)
                && forall j :: 0 <= j < i ==> RoutesOk(n, sections[j])
    decreases |sections|
  {
    var front := sections[..|sections| - 1];
    var last := |sections| - 1;
    assert forall i :: 0 <= i < |front| ==> front[i] == sections[i];
    if Build(n, seed, front).Err? {
      BuildFirstError(n, seed, front, e);
      var i :| 0 <= i < |front| && Route(n, front[i].name, front[i].config) == Err(e)
               && forall j :: 0 <= j < i ==> RoutesOk(n, front[j]);
      assert Route(n, sections[i].name, sections[i].config) == Err(e);
    } else {
      BuildOkIff(n, seed, front);
      assert Route(n, sections[last].name, sections[last].config) == Err(e);
    }
  }

  /** A key is in a registry exactly when it was seeded or some section was stored under it. */
  lemma {:induction false} BuildKeys(n: string, seed: Maps, sections: seq<Section>, m: Maps, g: Registry, k: string)
    requires Build(n, seed, sections) == Ok(m)
    ensures k in Entries(m, g) <==> k in Entries(seed, g) || exists i :: 0 <= i < |sections| && Writes(n, sections[i], g, k)
    decreases |sections|
  {
    if sections != [] {
      var front := sections[..|sections| - 1];
      BuildStep(n, seed, sections, m);
      BuildKeys(n, seed, front, Build(n, seed, front).value, g, k);
      assert forall i :: 0 <= i < |front| ==> front[i] == sections[i];
      if exists i :: 0 <= i < |sections| && Writes(n, sections[i], g, k) {
        var i :| 0 <= i < |sections| && Writes(n, sections[i], g, k);
        if i < |front| {
          assert Writes(n, front[i], g, k);
        }
      }
    }
  }

  /** The entry under a key is the config of the last section stored under it. */
  lemma {:induction false} BuildLastWriter(n: string, seed: Maps, sections: seq<Section>, m: Maps, g: Registry, k: string, i: nat)
    requires Build(n, seed, sections) == Ok(m)
    requires i < |sections| && Writes(n, sections[i], g, k)
    requires forall j :: i < j < |sections| ==> !Writes(n, sections[j], g, k)
    ensures k in Entries(m, g)
    ensures Entries(m, g)[k] == Route(n, sections[i].name, sections[i].config).value.config
    decreases |sections|
  {
    var front := sections[..|sections| - 1];
    BuildStep(n, seed, sections, m);
    if i < |front| {
      assert front[i] == sections[i];
      assert forall j :: i < j < |front| ==> front[j] == sections[j];
      BuildLastWriter(n, seed, front, Build(n, seed, front).value, g, k, i);
    }
  }

  /** A key no section is stored under keeps its seeded entry, or stays absent. */
  lemma {:induction false} BuildUnwritten(n: string, seed: Maps, sections: seq<Section>, m: Maps, g: Registry, k: string)
    requires Build(n, seed, sections) == Ok(m)
    requires forall i :: 0 <= i < |sections| ==> !Writes(n, sections[i], g, k)
    ensures k in Entries(m, g) <==> k in Entries(seed, g)
    ensures k in Entries(seed, g) ==> Entries(m, g)[k] == Entries(seed, g)[k]
    decreases |sections|
  {
    if sections != [] {
      var front := sections[..|sections| - 1];
      BuildStep(n, seed, sections, m);
      assert forall i :: 0 <= i < |front| ==> front[i] == sections[i];
      BuildUnwritten(n, seed, front, Build(n, seed, front).value, g, k);
    }
  }

  // ---------------------------------------------------------------------------
  // The whole of `configure`

  /** The record is version 1 and holds the three registries the loop built from the seed. */
  lemma ConfiguredRecord(app: string, logger: Config, handler: Config, formatter: Config, sections: seq<Section>)
    requires Configured(app, logger, handler, formatter, sections).Ok?
    ensures var rec := Configured(app, logger, handler, formatter, sections).value;
      var n := AppLoggerName(app);
      && rec.version == 1
      && FillDefaultHandler(handler).Ok?
      && Build(n, Seed(n, logger, FillDefaultHandler(handler).value, formatter), sections)
           == Ok(Maps(rec.loggers, rec.handlers, rec.formatters))
  {
  }

  /** `configure` raises exactly when the handler has no `class` or some section raises. */
  lemma ConfiguredFails(app: string, logger: Config, handler: Config, formatter: Config, sections: seq<Section>)
    ensures Configured(app, logger, handler, formatter, sections).Err? <==>
      "class" !in handler || exists i :: 0 <= i < |sections| && !RoutesOk(AppLoggerName(app), sections[i])
  {
    var n := AppLoggerName(app);
    if "class" in handler {
      BuildOkIff(n, Seed(n, logger, FillDefaultHandler(handler).value, formatter), sections);
    }
  }

  /**
   * Each registry of the record holds the application logger name and the
   * keys of the sections stored in it, and nothing else.
   */
  lemma ConfiguredKeys(app: string, logger: Config, handler: Config, formatter: Config, sections: seq<Section>, g: Registry, k: string)
    requires Configured(app, logger, handler, formatter, sections).Ok?
    ensures var rec := Configured(app, logger, handler, formatter, sections).value;
      k in RecordEntries(rec, g) <==> k == AppLoggerName(app) || exists i :: 0 <= i < |sections| && Writes(AppLoggerName(app), sections[i], g, k)
  {
    var n := AppLoggerName(app);
    var rec := Configured(app, logger, handler, formatter, sections).value;
    var seed := Seed(n, logger, FillDefaultHandler(handler).value, formatter);
    ConfiguredRecord(app, logger, handler, formatter, sections);
    BuildKeys(n, seed, sections, Maps(rec.loggers, rec.handlers, rec.formatters), g, k);
    assert Entries(Maps(rec.loggers, rec.handlers, rec.formatters), g) == RecordEntries(rec, g);
    assert k in Entries(seed, g) <==> k == n;
  }

  /** A later section with the same key replaces earlier entries, the seeded one included. */
  lemma ConfiguredLastWriter(app: string, logger: Config, handler: Config, formatter: Config, sections: seq<Section>, g: Registry, k: string, i: nat)
    requires Configured(app, logger, handler, formatter, sections).Ok?
    requires i < |sections| && Writes(AppLoggerName(app), sections[i], g, k)
    requires forall j :: i < j < |sections| ==> !Writes(AppLoggerName(app), sections[j], g, k)
    ensures var rec := Configured(app, logger, handler, formatter, sections).value;
      && k in RecordEntries(rec, g)
      && RecordEntries(rec, g)[k] == Route(AppLoggerName(app), sections[i].name, sections[i].config).value.config
  {
    var n := AppLoggerName(app);
    var rec := Configured(app, logger, handler, formatter, sections).value;
    ConfiguredRecord(app, logger, handler, formatter, sections);
    var m := Maps(rec.loggers, rec.handlers, rec.formatters);
    BuildLastWriter(n, Seed(n, logger, FillDefaultHandler(handler).value, formatter), sections, m, g, k, i);
    assert Entries(m, g) == RecordEntries(rec, g);
  }

  /**
   * When no section is stored under the application logger name in registry
   * `g`, its entry there is the seeded one: the logger with itself as only
   * handler, the defaulted handler with itself as formatter, or the default
   * formatter.
   */
  lemma ConfiguredAppEntries(app: string, logger: Config, handler: Config, formatter: Config, sections: seq<Section>, g: Registry)
    requires Configured(app, logger, handler, formatter, sections).Ok?
    requires forall i :: 0 <= i < |sections| ==> !Writes(AppLoggerName(app), sections[i], g, AppLoggerName(app))
    ensures var rec := Configured(app, logger, handler, formatter, sections).value;
      var n := AppLoggerName(app);
      && n in RecordEntries(rec, g)
      && (g == Loggers ==> rec.loggers[n] == logger["handlers" := StrList([n])])
      && (g == Handlers ==> rec.handlers[n] == FillDefaultHandler(handler).value["formatter" := Str(n)])
      && (g == Formatters ==> rec.formatters[n] == formatter)
  {
    var n := AppLoggerName(app);
    var rec := Configured(app, logger, handler, formatter, sections).value;
    var seed := Seed(n, logger, FillDefaultHandler(handler).value, formatter);
    var m := Maps(rec.loggers, rec.handlers, rec.formatters);
    ConfiguredRecord(app, logger, handler, formatter, sections);
    BuildUnwritten(n, seed, sections, m, g, n);
    assert Entries(m, g) == RecordEntries(rec, g);
  }

  // ---------------------------------------------------------------------------
  // The defaults of CONFIG_SPEC (lines 29-40), taken as given inputs

  const DefaultFormat: string := "%(asctime)s - %(name)s - %(levelname)s - %(message)s"
  const DefaultLogger: Config := map["level" := Str("INFO"), "propagate" := Flag(true)]
  const DefaultHandler: Config := map["class" := Null]
  const DefaultFormatter: Config := map["format" := Str(DefaultFormat)]

  /**
   * With the defaults and no extra section, the record configures one logger
   * named after the application, propagating, at level INFO, with one stream
   * handler on the standard error stream and the default format.
   */
  lemma DefaultConfiguration(app: string)
    ensures var n := AppLoggerName(app);
      Configured(app, DefaultLogger, DefaultHandler, DefaultFormatter, []) == Ok(Record(1,
        map[n := map["level" := Str("INFO"), "propagate" := Flag(true), "handlers" := StrList([n])]],
        map[n := map["class" := Str(DefaultHandlerClass), "stream" := Str(DefaultStream), "formatter" := Str(n)]],
        map[n := map["format" := Str(DefaultFormat)]]))
  {
    var n := AppLoggerName(app);
    var h := map["class" := Str(DefaultHandlerClass), "stream" := Str(DefaultStream)];
    assert "stream" !in DefaultHandler["class" := Str(DefaultHandlerClass)];
    assert DefaultHandler["class" := Str(DefaultHandlerClass)]["stream" := Str(DefaultStream)] == h;
    assert FillDefaultHandler(DefaultHandler) == Ok(h);
    assert h["formatter" := Str(n)] == map["class" := Str(DefaultHandlerClass), "stream" := Str(DefaultStream), "formatter" := Str(n)];
    assert DefaultLogger["handlers" := StrList([n])] == map["level" := Str("INFO"), "propagate" := Flag(true), "handlers" := StrList([n])];
  }
}
