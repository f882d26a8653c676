# Nagare logging service: topology builder and logger-name facade

This project models the two pieces of logic of the Nagare logging service that
sit in front of Python's `logging` runtime, and proves what they guarantee.

- `Logger.configure` (`nagare/services/logging.py`) builds the dictionary record
  `{'version': 1, 'loggers': ..., 'handlers': ..., 'formatters': ...}` that it
  hands to `logging.config.dictConfig`. It takes an application name, a default
  `logger`/`handler`/`formatter` section and any number of extra named
  sections, and it stores the application logger name
  `nagare.application.<app>` as the facade's active namespace.
- The facade of `nagare/log.py` holds that namespace (`set_logger`) and resolves
  possibly relative logger names against it (`get_logger`).

Files:

- `wrappers.dfy`: the `Option` type, which stands for Python's `None`.
- `text.dfy`: the `str` operations the code uses. These are `startswith`,
  `split(',')` (with its inverse `Join` and both round trips) and `rstrip('.')`
  (characterised by its contract and proved unique).
- `nagare_log.dfy`: the module state as the class `LogNamespace`. It has
  `SetLogger` and `GetLogger`. The pure `ResolveName` gives the name
  `get_logger` passes to `logging.getLogger`.
- `services_logging.dfy`: the configuration model. A section value is a string,
  a list of strings, a boolean or `None`. Each section is a map from option
  names to values. The extra sections form an ordered sequence of
  `(name, config)` pairs, in iteration order. Python exceptions become `Err`
  results. `Configure` and `CollectSections` are the imperative code, with the
  loop of lines 59-77. They are proved equal to the specification functions
  `Configured` and `Build`.
- `logging_properties.dfy`: lemmas about the specification functions. They
  cover how one section is routed, which keys each registry holds, and that the
  last section stored under a key wins. They also say when `configure` raises,
  and what the record is under the `CONFIG_SPEC` defaults.

## Behaviour notes

- A qualname `"."` gives the key `nagare.application.<app>.`. The code
  concatenates plainly and strips no dot. Any relative qualname that ends in a
  dot keeps that dot in its key. The facade strips trailing dots, so for such a
  qualname the configured logger is not the one `get_logger` returns
  (`RelativeQualnameVsFacade`, `DotQualnameKeepsTheDot`).
- The qualname `root` is an ordinary absolute name. The code synthesises no
  root logger.
- The application logger's three entries are always seeded before the extra
  sections are read. A later section with the same key replaces the seeded
  entry (`ConfiguredLastWriter`).
- Under the `CONFIG_SPEC` defaults the application logger propagates. It copies
  `propagate` from the default `logger` section, whose default is true
  (`DefaultConfiguration`).

## Model

| member | source | states |
|---|---|---|
| Text.Split | nagare/services/logging.py:69 | `str.split` on one separator: at least one piece, and no piece holds the separator |
| Text.StartsWith | nagare/services/logging.py:60 | `str.startswith`: `s` is the prefix followed by the rest of `s` |
| Text.Join | nagare/services/logging.py:69 | `sep.join(parts)`; no contract of its own, it is the inverse stated by `JoinSplit` and `SplitJoin` |
| Text.JoinSplit | nagare/services/logging.py:69 | joining the pieces of a split with the separator gives back the original string |
| Text.SplitJoin | nagare/services/logging.py:69 | splitting the join of separator-free pieces gives back the pieces |
| Text.RStrip | nagare/log.py:30 | `rstrip('.')`: the result is a prefix, does not end with the character, and only that character follows it |
| Text.RStripUnique | nagare/log.py:30 | any prefix with those three properties is the `rstrip` result |
| Text.RStripAppend | nagare/log.py:30 | a trailing copy of the character does not change the stripped result |
| Text.RStripIdempotent | nagare/log.py:30 | stripping twice is stripping once |
| NagareLog.IsSet | nagare/log.py:28 | the truthiness of `logger_name`: neither `None` nor the empty string |
| NagareLog.ResolveName | nagare/log.py:21-30 | the name handed to `logging.getLogger` never ends with a dot |
| NagareLog.LogNamespace.constructor | nagare/log.py:12 | the stored namespace starts as `None` |
| NagareLog.LogNamespace.SetLogger | nagare/log.py:15-18 | after `set_logger(n)` the stored namespace is `n` |
| NagareLog.LogNamespace.GetLogger | nagare/log.py:21-30 | returns `ResolveName` of the stored namespace, changes no state, and never ends with a dot |
| NagareLog.NoNameIsDot | nagare/log.py:24-25 | calling without a name resolves exactly as the name `"."` |
| NagareLog.NoNameGivesNamespace | nagare/log.py:24-30 | with a namespace set, no name gives the namespace with trailing dots removed |
| NagareLog.RelativeName | nagare/log.py:27-30 | with a namespace set, `"." + x` gives `namespace + "." + x` with trailing dots removed |
| NagareLog.RelativeNameExact | nagare/log.py:27-30 | a non-empty `x` that does not end with a dot, dotted or not (`.views.admin`), gives exactly `namespace + "." + x` |
| NagareLog.UnsetNamespace | nagare/log.py:28 | with the namespace `None` or empty, every relative name gives `nagare.application` |
| NagareLog.AbsoluteName | nagare/log.py:27-30 | a name not starting with a dot only loses its trailing dots, whatever the namespace |
| ServicesLogging.Truthy | nagare/services/logging.py:51 | Python truthiness: a value is falsy exactly when it is `''`, `[]`, `False` or `None` |
| ServicesLogging.AppLoggerName | nagare/services/logging.py:48 | the application logger name is `nagare.application.` followed by the application name |
| ServicesLogging.FillDefaultHandler | nagare/services/logging.py:51-53 | a missing `class` raises `KeyError`; a truthy class leaves the handler unchanged; a falsy one becomes `logging.StreamHandler`, adding `stream = ext://sys.stderr` only if `stream` is absent; every other key is kept |
| ServicesLogging.Seed | nagare/services/logging.py:55-57 | each registry has exactly one key, the application logger name; the logger gets `handlers = [name]` and the handler `formatter = name`; every other option is kept |
| ServicesLogging.ResolveQualname | nagare/services/logging.py:62-63 | a qualname starting with a dot gives the application logger name followed by the whole qualname, so no dot is stripped; any other qualname is the key verbatim |
| ServicesLogging.Propagates | nagare/services/logging.py:65 | `config.get('propagate', '1') == '1'`: true exactly when the option is absent or is the string `'1'` |
| ServicesLogging.CoerceLogger | nagare/services/logging.py:65-69 | raises the `split` AttributeError exactly when `handlers` is truthy and not a string; otherwise adds the `propagate` flag, replaces a truthy `handlers` string by its comma-split list, and keeps every other option |
| ServicesLogging.Targets | nagare/services/logging.py:71-77 | a logger section is stored under the key; the key goes to the handlers as `X` exactly for `handler_X`, and to the formatters as `X` exactly for `formatter_X`; the config is stored as it is |
| ServicesLogging.Route | nagare/services/logging.py:60-77 | a non-logger section never raises and is stored unchanged, not as a logger; a logger section that does not raise has a string qualname, is keyed by the resolved qualname, and loses its `qualname` option |
| ServicesLogging.Apply | nagare/services/logging.py:71-77 | each registry gains the routed key, holding the routed config there, and keeps every other entry |
| ServicesLogging.Build | nagare/services/logging.py:59-77 | a finished loop keeps every seeded key in every registry |
| ServicesLogging.Configured | nagare/services/logging.py:47-85 | a handler without `class` raises `KeyError('class')`; a returned record has version 1 and the application logger name in all three registries |
| ServicesLogging.BuildErrPersists | nagare/services/logging.py:59-77 | once a section raises, the whole loop raises that error |
| ServicesLogging.CollectSections | nagare/services/logging.py:59-77 | the loop that rewrites each section and stores it in the registries computes `Build` |
| ServicesLogging.Configure | nagare/services/logging.py:47-85 | sets the facade namespace to the application logger name, even when it later raises, and returns `Configured`: the record handed to `dictConfig`, or the exception |
| LoggingProperties.AppLoggerNameInjective | nagare/services/logging.py:48 | different applications get different application loggers |
| LoggingProperties.FillDefaultHandlerIdempotent | nagare/services/logging.py:51-53 | filling in the default handler a second time changes nothing |
| LoggingProperties.RouteFails | nagare/services/logging.py:60-69 | a section raises exactly when it is a `logger_` section with no qualname, a non-string qualname, or a truthy non-string `handlers` |
| LoggingProperties.LoggerSectionRouting | nagare/services/logging.py:60-77 | a `logger_` section is stored under its resolved qualname; `qualname` is removed; `propagate` is true exactly when absent or `'1'`; a truthy `handlers` becomes exactly the list of its comma-separated parts, which joins back to the original string; other options are kept; the prefix tests apply to the resolved name |
| LoggingProperties.OtherSectionRouting | nagare/services/logging.py:73-77 | any other section is stored unchanged under `handler_X` → `X` or `formatter_X` → `X`, exactly when its name has that prefix |
| LoggingProperties.UnmatchedSectionIgnored | nagare/services/logging.py:59-77 | a section with none of the three prefixes leaves the registries unchanged |
| LoggingProperties.QualnameRoutesToHandlers | nagare/services/logging.py:61-74 | an illustration of `LoggerSectionRouting`: a logger section with qualname `handler_y` is stored both as logger `handler_y` and as handler `y` |
| LoggingProperties.RelativeQualnameVsFacade | nagare/services/logging.py:62-63 | a relative qualname `q` becomes the key `name + q`, and that key is the name the facade resolves `q` to exactly when `q` does not end with a dot |
| LoggingProperties.DotQualnameKeepsTheDot | nagare/services/logging.py:62-63 | the qualname `"."` becomes the key `name + "."`, while the facade resolves `"."` to `name` |
| LoggingProperties.BuildStep | nagare/services/logging.py:59-77 | a finished loop is the finished loop over all but the last section, followed by the last section |
| LoggingProperties.BuildOkIff | nagare/services/logging.py:59-77 | the loop finishes exactly when no section raises |
| LoggingProperties.BuildFirstError | nagare/services/logging.py:59-77 | a raising loop raises the error of the first section that fails |
| LoggingProperties.BuildKeys | nagare/services/logging.py:71-77 | a key is in a registry exactly when it was seeded or some section was stored under it |
| LoggingProperties.BuildLastWriter | nagare/services/logging.py:71-77 | the entry under a key is the config of the last section stored under it |
| LoggingProperties.BuildUnwritten | nagare/services/logging.py:71-77 | a key that no section writes keeps its seeded entry, or stays absent |
| LoggingProperties.ConfiguredRecord | nagare/services/logging.py:79-85 | the record has version 1 and holds exactly the three registries built from the seed |
| LoggingProperties.ConfiguredFails | nagare/services/logging.py:51-77 | `configure` raises exactly when the handler has no `class` or some section raises |
| LoggingProperties.ConfiguredKeys | nagare/services/logging.py:55-85 | each registry holds the application logger name plus the keys of the sections stored in it, and nothing else |
| LoggingProperties.ConfiguredLastWriter | nagare/services/logging.py:71-85 | a later section with the same key replaces earlier entries, including the seeded application logger |
| LoggingProperties.ConfiguredAppEntries | nagare/services/logging.py:51-57 | in each registry that no section writes under the application logger name, the application entry is the seeded one: the logger, the defaulted handler or the formatter |
| LoggingProperties.DefaultConfiguration | nagare/services/logging.py:29-57 | with the `CONFIG_SPEC` defaults and no extra section: one logger at INFO that propagates, with handlers `[name]`; a `StreamHandler` on `ext://sys.stderr` with formatter `name`; the default format |

## Left out

- `logging.config.dictConfig` (nagare/services/logging.py:87) and `logging.getLogger` (nagare/log.py:30) belong to the standard-library logging runtime. The model stops at the record and at the name handed to them.
- In-place mutation visible to the caller is not modelled: the caller's `handler` dict gets its class and stream filled in, and `qualname` is popped from the caller's section dicts. The model works on values, so it does not capture that a second call on the same dicts raises `KeyError('qualname')`.
- Aliasing is not modelled. A logger section whose qualname has a `handler_`/`formatter_` prefix is stored as the same dict object in two registries; in the model it is two equal values.
- Dict insertion order is not modelled. The registries are maps; only the keys and the stored values are.
- `CONFIG_SPEC` validation by `configobj` (nagare/services/logging.py:29-40) is external. Its defaults appear only as given inputs in `DefaultConfiguration`.
- The patching of `logging._srcfile` and `addLevelName(10000, 'NONE')` (nagare/services/logging.py:22-23) are side effects on a foreign library.
- `Logger.__init__` and `handle_start` (nagare/services/logging.py:42-44, 89-90) are plugin lifecycle plumbing.
- The facade functions `debug` … `log` (nagare/log.py:33-58) only forward to the logger that `get_logger` returns.
- `setup.py` is packaging metadata.
