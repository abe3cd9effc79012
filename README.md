# Environment store and logger control, in Dafny

This project models two collaborating pieces of a small Node.js service:

- **The environment store** (`Environment`, src/factories/environment.ts). It is a registry from
  variable name to a typed record. Declaring a variable reads its raw string from a snapshot of the
  process environment and converts it by the declared type (string, number, boolean or json). The
  record, including the resolved value, is stored under the name, and the value is returned. Later
  lookups by name see the cached value (held by value in the model; see "## Left out"). A name
  that was never declared reads as the empty string.
- **The logger's control logic** (`MyLogger`, src/factories/logger.ts). At construction it declares
  `LOG_LEVEL` (default `setup`) and builds the level table from the fixed list `fatal … setup`,
  each name ranked by its index. It creates one console sink at the declared level and is silent
  when `NODE_ENV` is `test`. At run time `updateLogLevel` changes the level of one named sink, or of
  every sink. Class and method loggers tag each record with an instance tag such as
  `bar.Foo.app`. The `printf` format step turns a record into
  `timestamp | level | instance | message {json}`.

Files:

- `wrappers.dfy` holds `Option`, `Result` and `Outcome`.
- `js_values.dfy` holds a JSON value type, JavaScript truthiness, and `Builtins`. `Builtins`
  bundles `Number()`, `JSON.parse`, `JSON.stringify` and `String()`, which are parameters of the
  model.
- `environment.dfy` holds module `EnvironmentFactory`.
- `logger.dfy` holds module `LoggerFactory`.

The environment store is a class whose `envMap` the methods update. The logger is a class whose
sinks are an array updated in place. The `data` and `info` objects that the source mutates are
`Record` objects. The level table, instance tags and the rendered line are pure functions, with
lemmas about them. `GenerateLogLevels` is the `reduce` that builds the level table,
`IsValidLevel` the `!levels[level]` test of `updateLogLevel`, `Tag` the instance-tag template
literals of class and method loggers, and `Head` the text before the JSON in `printf`. Their meaning
is stated by the lemmas and contracts in the table below that use them.

Three behaviours of the code that may look unintended are modelled as written:

- A number variable whose raw value parses to `0` falls back to its default, because the code
  tests `Number(raw) || default`.
- Without an explicit default, the fallback of a number variable is the variable's own name, a
  string (`EnvironmentFactory.NumberValue`).
- `updateLogLevel('fatal')` is rejected. `fatal` has rank `0`, which the validity test
  `!levels[level]` treats as missing (`LoggerFactory.ValidLevels`).

## Model

| member | source | states |
|---|---|---|
| EnvironmentFactory.Stored | src/factories/environment.ts:47 | the stored record keeps the declared name and the resolved value, and takes the given type, live flag and default over the defaults `string`, not live, and the variable's own name |
| EnvironmentFactory.Resolve | src/factories/environment.ts:46-61 | declaring a variable fails exactly when it is json-typed, its raw string is present and non-empty, and that string does not parse; the failure is the parse error |
| EnvironmentFactory.StringValue | src/factories/environment.ts:59-60 | a string variable resolves to its raw string when present and non-empty, else to its default, which is its own name when no default is given |
| EnvironmentFactory.StringValueIsString | src/factories/environment.ts:59-60 | a string variable whose default, if any, is a string always resolves successfully to a string |
| EnvironmentFactory.NumberValue | src/factories/environment.ts:50-51 | a number variable resolves to the nonzero numeric parse of its raw string, or else to its default; absent, unparsable and zero raw values all give the default, and with no default that is the variable's name |
| EnvironmentFactory.BooleanValue | src/factories/environment.ts:53-54 | a boolean variable is true exactly when its raw string is `"true"`, always succeeds, and does not depend on the default |
| EnvironmentFactory.JsonValue | src/factories/environment.ts:56-57 | a json variable with an absent or empty raw string is the empty object, otherwise the parse of the raw string |
| EnvironmentFactory.Environment.constructor | src/factories/environment.ts:26-30 | a new store holds exactly NODE_ENV (declared as a string variable) and CWD (the working directory, stored verbatim) |
| EnvironmentFactory.Environment.AddCustomVariable | src/factories/environment.ts:32-44 | stores the value verbatim as a json-typed, non-live record with the value as its own default, replaces any record under the name, returns the value, and leaves what every other name reads as it was |
| EnvironmentFactory.Environment.AddEnvironmentVariable | src/factories/environment.ts:46-67 | returns the resolved value; on success the name maps to the new record and reads back as that value while every other name reads as before, and on a parse failure the registry is untouched |
| EnvironmentFactory.Environment.Get | src/factories/environment.ts:69-76 | a declared name reads as its stored value, any other name as the empty string |
| LoggerFactory.GeneratedRanks | src/factories/logger.ts:142-148 | the generated table ranks exactly the listed names, each by its last index in the list, and has exactly those names as keys |
| LoggerFactory.LevelNamesInOrder | src/factories/logger.ts:147 | for a list without repeats and without integer-like names, the table's keys, in the order Object.keys reports them, are the list itself |
| LoggerFactory.CustomLevelTable | src/factories/logger.ts:8 | the logger's table lists `fatal … setup` in order, and the i-th name has rank i |
| LoggerFactory.ValidLevels | src/factories/logger.ts:124-126 | the names accepted as levels are exactly the listed names other than `fatal`; unlisted names are rejected |
| LoggerFactory.FirstIndex | src/factories/logger.ts:129 | the position found holds the sought name and no earlier sink does; no position is found only when no sink has the name |
| LoggerFactory.SplitJoin | src/factories/logger.ts:79 | splitting a `.`-join of non-empty, dot-free segments at `.` gives the segments back |
| LoggerFactory.TagSpellsContext | src/factories/logger.ts:78-101 | for at least one class name, at least one method name in a method logger, and no name containing `.`, a logger's instance tag split at `.` is its method names, then its class names, then `app` |
| LoggerFactory.CreateClassLogger | src/factories/logger.ts:78-87 | a class logger's tag is its class names joined by `.`, then `.app` |
| LoggerFactory.CreateMethodLogger | src/factories/logger.ts:88-98 | a method logger's tag is its method names joined by `.`, then `.`, then its class logger's tag |
| LoggerFactory.Tail | src/factories/logger.ts:45-52 | the serialised object has no `message` or `timestamp`, always has a truthy `instance` (the record's own when truthy, else the logger's name), and keeps every other key and its value |
| LoggerFactory.ErrorSummary | src/factories/logger.ts:56-57 | the fallback object carries the error's message under `error`, with the stack under `stack` exactly when there is one, and nothing else |
| LoggerFactory.Render | src/factories/logger.ts:54-58 | a rendered line starts with the head (timestamp, level, instance and message, separated by bars) and ends with the serialised tail, or with the serialised error summary when the tail does not serialise; a tail that serialises always renders, and rendering cannot fail while error summaries serialise |
| LoggerFactory.DeclareLogLevel | src/factories/logger.ts:33 | LOG_LEVEL is declared as a string variable and resolves to its raw value when set and non-empty, else `setup` |
| LoggerFactory.MyLogger.constructor | src/factories/logger.ts:32-63 | the logger declares LOG_LEVEL, uses the table of the fixed list, has one console sink at the declared level, and is silent exactly when NODE_ENV reads as `test` |
| LoggerFactory.MyLogger.FindTransport | src/factories/logger.ts:129 | the loop finds the first sink with the given name, as `FirstIndex` specifies |
| LoggerFactory.MyLogger.GetConfiguration | src/factories/logger.ts:107-112 | reports the table's level names in insertion order and the sink names in sink order |
| LoggerFactory.MyLogger.UpdateLogLevel | src/factories/logger.ts:119-140 | rejects, in this order, an empty level, a level that is missing or ranked 0, and a non-empty sink name that no sink has, leaving every sink unchanged; otherwise sets the level of the first sink with that name only, or of every sink when no name is given |
| LoggerFactory.MyLogger.LogWithContext | src/factories/logger.ts:81-96 | the caller's data object gains `details` (the extra arguments) and `instance` (the context's tag), and the engine receives the level, the message and that object; a `null` data object throws and nothing reaches the engine |
| LoggerFactory.MyLogger.Printf | src/factories/logger.ts:45-59 | the record is left as the serialised tail, and the returned line is the rendering of the record as it was |

## Left out

- The logging engine's filtering by level, console output, timestamp generation and the `simple`
  format are not modelled. `silent` is stored but its effect on output is not.
- The `level` option passed to `createLogger` is not modelled. Only the console sink's level is.
- `log` and `database` forward to the engine. They are modelled only as the `EngineCall` handed over
  by `LogWithContext`.
- The `Array.isArray` guard of `generateLogLevels` cannot fail in the model, because the argument is
  typed as a sequence.
- The `live` flag is stored but never read, so nothing is stated about it.
- Options passed explicitly as `undefined`, which would override the defaults in `Object.assign`,
  are not modelled. An option is either given or absent.
- Names inherited from `Object.prototype` are not modelled. In JavaScript, `updateLogLevel('toString')`
  would pass the level test. The model's table holds only its own keys.
- `Number()`, `JSON.parse`, `JSON.stringify` and `String()` are parameters, not definitions. The model
  does not distinguish `-0` from `0`, NaN appears only as a failed number parse, and ±Infinity
  (`Number('Infinity')`, `Number('1e999')`, `JSON.parse('1e999')`) has no counterpart among the
  reals of `Num`/`JNum`.
- LoggerFactory.GenerateLogLevels: the table's `keys` are kept in insertion order. JavaScript's
  `Object.keys` lists integer-like names (`"0"`, `"42"`) first, in ascending numeric order, so for
  such names `keys` is not the order `getConfiguration` would report. `LevelNamesInOrder` states the
  order only for lists without integer-like names, and the fixed level list has none.
- LoggerFactory.MyLogger.LogWithContext: the data object is either a `Record` or `null`. A primitive
  passed as data (a number or a string), on which strict-mode property assignment also throws, is
  not modelled.
- EnvironmentFactory.Resolve: a json variable whose raw string parses to a primitive holds
  `Obj(JStr(..))`, `Obj(JNum(..))` or `Obj(JBool(..))`, not `Str`, `Num` or `Bool`. So one JavaScript
  value can have two encodings, and a json-declared NODE_ENV of `"test"` would not make the model's
  logger silent, where the source's `env === 'test'` would.
- EnvironmentFactory.Environment.Get: values are held by value. The source stores the caller's object
  (a custom value, or a parsed json object) by reference and `get` returns that same object, so a
  later mutation of it shows through `get`. That aliasing is not modelled.
- The key order inside serialised JSON is left to the `JSON.stringify` parameter.
- A non-string `instance` or `level` is rendered by the abstract `String()` parameter.
- The process environment and the working directory are parameters. Loading `.env` files
  (`dotenv`) is not part of this model.
- The default exported instances are not modelled; scenarios construct their own. The application
  shell, the HTTP health check, process uptime and the server entry point
  (src/classes/application.ts, src/index.ts) are not part of this model.
