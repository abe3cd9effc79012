/**
 * The control logic of MyLogger in src/factories/logger.ts: the level table,
 * the list of output sinks (transports) and its run-time level changes, the
 * instance tags of class and method loggers, and the layout of a rendered
 * line. The logging engine itself (filtering, console output, timestamps)
 * stays abstract.
 */
module LoggerFactory {
  import opened Wrappers
  import opened JsValues
  import opened EnvironmentFactory

  /** The level names, highest priority first. */
  const CustomList: seq<string> :=
    ["fatal", "error", "warn", "info", "http", "verbose", "debug", "database", "silly", "setup"]

  /** The application instance name that ends every instance tag. */
  const InstanceName: string := "app"

  /** The name the console transport reports. */
  const ConsoleName: string := "console"

  /** The declaration the logger makes of its own LOG_LEVEL variable. */
  const LogLevelInput: VariableInput := VariableInput("LOG_LEVEL", None, None, Some(Str("setup")))

  // ---------------------------------------------------------------------------
  // The level table: a JavaScript object built key by key, kept as its keys
  // in insertion order and a map to ranks.
  // ---------------------------------------------------------------------------

  /**
   * The keys in insertion order and the rank under each key. Insertion order
   * is the order Object.keys reports as long as no key is integer-like;
   * JavaScript lists integer-like keys first, in ascending numeric order.
   */
  datatype LevelTable = LevelTable(keys: seq<string>, ranks: map<string, nat>)

  /** A canonical non-negative integer name such as "0" or "42". */
  predicate IntegerLike(s: string) {
    |s| > 0 && (forall k :: 0 <= k < |s| ==> '0' <= s[k] <= '9') && (s[0] == '0' ==> |s| == 1)
  }

  /** `table[name]`: the rank under `name`, None when missing. */
  function Rank(t: LevelTable, name: string): (r: Option<nat>) {
    if name in t.ranks then Some(t.ranks[name]) else None
  }

  /**
   * `Object.assign(table, { [name]: rank })`: an existing key keeps its place
   * and takes the new rank; a new key is appended.
   */
  function Assign(t: LevelTable, name: string, rank: nat): (t': LevelTable) {
    LevelTable(if name in t.ranks then t.keys else t.keys + [name], t.ranks[name := rank])
  }

  /** `i` is the last position of `name` in `levels`. */
  predicate IsLastIndex(levels: seq<string>, name: string, i: nat) {
    i < |levels| && levels[i] == name && forall j :: i < j < |levels| ==> levels[j] != name
  }

  /** generateLogLevels: the reduce that maps each name, in list order, to its index. */
  function GenerateLogLevels(levels: seq<string>): (t: LevelTable) {
    if |levels| == 0 then LevelTable([], map[])
    else Assign(GenerateLogLevels(levels[..|levels| - 1]), levels[|levels| - 1], |levels| - 1)
  }

  /**
   * Every listed name, and only those, has a rank in the generated table, and
   * that rank is the name's last index in the list; the keys are the listed
   * names, each once.
   */
  lemma {:induction false} GeneratedRanks(levels: seq<string>)
    ensures forall name :: Rank(GenerateLogLevels(levels), name).Some? <==> name in levels
    ensures forall name :: name in levels ==> IsLastIndex(levels, name, Rank(GenerateLogLevels(levels), name).value)
    ensures forall name :: name in GenerateLogLevels(levels).keys <==> name in levels
  {
    if |levels| > 0 {
      var n := |levels| - 1;
      var prefix := levels[..n];
      GeneratedRanks(prefix);
      assert levels == prefix + [levels[n]];
      var t := GenerateLogLevels(levels);
      forall name
        ensures Rank(t, name).Some? <==> name in levels
        ensures name in levels ==> IsLastIndex(levels, name, Rank(t, name).value)
        ensures name in t.keys <==> name in levels
      {
        if name != levels[n] {
          assert name in levels <==> name in prefix;
        }
      }
    }
  }

  /** No name occurs twice; stated from the end, the way the table is built. */
  predicate Distinct(s: seq<string>) {
    |s| == 0 || (s[|s| - 1] !in s[..|s| - 1] && Distinct(s[..|s| - 1]))
  }

  lemma {:induction false} PairwiseDistinct(s: seq<string>)
    requires forall i, j :: 0 <= i < j < |s| ==> s[i] != s[j]
    ensures Distinct(s)
  {
    if |s| > 0 {
      PairwiseDistinct(s[..|s| - 1]);
    }
  }

  /**
   * For a list without repeats and without integer-like names, the keys of the
   * table as Object.keys reports them are the list itself, in order.
   */
  lemma {:induction false} LevelNamesInOrder(levels: seq<string>)
    requires Distinct(levels)
    requires forall i :: 0 <= i < |levels| ==> !IntegerLike(levels[i])
    ensures GenerateLogLevels(levels).keys == levels
  {
    if |levels| > 0 {
      var n := |levels| - 1;
      var prefix := levels[..n];
      LevelNamesInOrder(prefix);
      GeneratedRanks(prefix);
      assert levels[n] !in GenerateLogLevels(prefix).ranks;
      assert prefix + [levels[n]] == levels;
    }
  }

  /** The table MyLogger builds from the fixed level list. */
  const Levels: LevelTable := GenerateLogLevels(CustomList)

  /** The table of the fixed level list: `fatal` ranks 0, ..., `setup` ranks 9, keys in list order. */
  lemma CustomLevelTable()
    ensures Levels.keys == CustomList
    ensures forall i :: 0 <= i < |CustomList| ==> Rank(Levels, CustomList[i]) == Some(i)
  {
    PairwiseDistinct(CustomList);
    forall i | 0 <= i < |CustomList|
      ensures !IntegerLike(CustomList[i])
    {
      assert !('0' <= CustomList[i][0] <= '9');
    }
    LevelNamesInOrder(CustomList);
    GeneratedRanks(CustomList);
    forall i | 0 <= i < |CustomList|
      ensures Rank(Levels, CustomList[i]) == Some(i)
    {
      assert IsLastIndex(CustomList, CustomList[i], Rank(Levels, CustomList[i]).value);
    }
  }

  /** `!levels[level]` is false: the level has a rank and the rank is not 0. */
  predicate IsValidLevel(t: LevelTable, level: string) {
    Rank(t, level).Some? && Rank(t, level).value != 0
  }

  /**
   * updateLogLevel accepts exactly the listed names other than `fatal`, whose
   * rank 0 is falsy.
   */
  lemma ValidLevels()
    ensures forall level :: level !in CustomList ==> !IsValidLevel(Levels, level)
    ensures forall i :: 0 <= i < |CustomList| ==> (IsValidLevel(Levels, CustomList[i]) <==> i != 0)
  {
    CustomLevelTable();
    GeneratedRanks(CustomList);
  }

  // ---------------------------------------------------------------------------
  // Sinks and errors
  // ---------------------------------------------------------------------------

  /** An output sink: its name and its minimum level. */
  datatype Transport = Transport(name: string, level: string)

  /** `transports.find(t => t.name === name)`, as a position. */
  function FirstIndex(ts: seq<Transport>, name: string): (r: Option<nat>)
    ensures r.Some? ==> r.value < |ts| && ts[r.value].name == name
    ensures r.Some? ==> forall j :: 0 <= j < r.value ==> ts[j].name != name
    ensures r.None? ==> forall j :: 0 <= j < |ts| ==> ts[j].name != name
  {
    if |ts| == 0 then None
    else if ts[0].name == name then Some(0)
    else match FirstIndex(ts[1..], name)
      case None => None
      case Some(i) => Some(i + 1)
  }

  /** The errors updateLogLevel throws. */
  datatype LogControlError = LevelRequired | InvalidLevel(level: string) | InvalidTransport(transport: string) {
    function Message(): string {
      match this
      case LevelRequired => "Log level is required to update logs"
      case InvalidLevel(level) => "'" + level + "' is not a valid log level"
      case InvalidTransport(transport) => "'" + transport + "' is not a valid transport"
    }
  }

  /** What getConfiguration reports. */
  datatype Configuration = Configuration(levels: seq<string>, transports: seq<string>)

  // ---------------------------------------------------------------------------
  // Instance tags
  // ---------------------------------------------------------------------------

  /** `parts.join(sep)`. */
  function Join(parts: seq<string>, sep: string): (s: string) {
    if |parts| == 0 then ""
    else if |parts| == 1 then parts[0]
    else parts[0] + sep + Join(parts[1..], sep)
  }

  /** `s.split(sep)`: the pieces between occurrences of `sep`; never empty. */
  function Split(s: string, sep: char): (r: seq<string>)
    ensures |r| >= 1
  {
    if |s| == 0 then [""]
    else
      var rest := Split(s[1..], sep);
      if s[0] == sep then [""] + rest else [[s[0]] + rest[0]] + rest[1..]
  }

  /** No segment contains the separator. */
  predicate DotFree(parts: seq<string>) {
    forall i :: 0 <= i < |parts| ==> '.' !in parts[i]
  }

  lemma {:induction false} SplitPiece(a: string, rest: string)
    requires '.' !in a
    ensures Split(a, '.') == [a]
    ensures Split(a + "." + rest, '.') == [a] + Split(rest, '.')
  {
    if |a| == 0 {
      assert a + "." + rest == "." + rest;
      assert ("." + rest)[1..] == rest;
    } else {
      SplitPiece(a[1..], rest);
      assert (a + "." + rest)[1..] == a[1..] + "." + rest;
      assert [a[0]] + a[1..] == a;
    }
  }

  /** Splitting a join of dot-free segments at '.' gives the segments back. */
  lemma {:induction false} SplitJoin(parts: seq<string>)
    requires |parts| >= 1 && DotFree(parts)
    ensures Split(Join(parts, "."), '.') == parts
  {
    if |parts| == 1 {
      SplitPiece(parts[0], "");
    } else {
      SplitJoin(parts[1..]);
      SplitPiece(parts[0], Join(parts[1..], "."));
    }
  }

  lemma {:induction false} JoinConcat(a: seq<string>, b: seq<string>)
    requires |a| >= 1 && |b| >= 1
    ensures Join(a + b, ".") == Join(a, ".") + "." + Join(b, ".")
  {
    if |a| > 1 {
      JoinConcat(a[1..], b);
      assert (a + b)[1..] == a[1..] + b;
    }
  }

  /**
   * A bound logger: a class logger made from class-name segments, or a method
   * logger made from a class logger and method-name segments.
   */
  datatype Context =
    | ClassLogger(classNames: seq<string>)
    | MethodLogger(methodNames: seq<string>, classNames: seq<string>)

  /** The segments a context names, innermost first. */
  function Segments(ctx: Context): (segments: seq<string>) {
    match ctx
    case ClassLogger(c) => c
    case MethodLogger(m, c) => m + c
  }

  /** The instance tag of a context: its segments joined by '.', then the instance name. */
  function Tag(ctx: Context): (tag: string) {
    var classTag := Join(ctx.classNames, ".") + "." + InstanceName;
    if ctx.ClassLogger? then classTag else Join(ctx.methodNames, ".") + "." + classTag
  }

  /**
   * With non-empty, dot-free segment lists a tag spells out its context:
   * splitting it at '.' gives the method names, then the class names, then
   * the instance name.
   */
  lemma TagSpellsContext(ctx: Context)
    requires |ctx.classNames| >= 1 && DotFree(Segments(ctx))
    requires ctx.MethodLogger? ==> |ctx.methodNames| >= 1
    ensures Split(Tag(ctx), '.') == Segments(ctx) + [InstanceName]
  {
    var parts := Segments(ctx) + [InstanceName];
    assert DotFree(parts);
    JoinConcat(ctx.classNames, [InstanceName]);
    if ctx.MethodLogger? {
      JoinConcat(ctx.methodNames, ctx.classNames + [InstanceName]);
      assert parts == ctx.methodNames + (ctx.classNames + [InstanceName]);
    }
    SplitJoin(parts);
  }

  /** createClassLogger(...classNames). */
  function CreateClassLogger(classNames: seq<string>): (ctx: Context)
    ensures Tag(ctx) == Join(classNames, ".") + "." + InstanceName
    ensures Segments(ctx) == classNames
  {
    ClassLogger(classNames)
  }

  /**
   * classLogger.createMethodLogger(...methodNames): the method logger's tag
   * extends its class logger's tag, which is left as it was.
   */
  function CreateMethodLogger(parent: Context, methodNames: seq<string>): (ctx: Context)
    requires parent.ClassLogger?
    ensures Tag(ctx) == Join(methodNames, ".") + "." + Tag(parent)
    ensures Segments(ctx) == methodNames + Segments(parent)
  {
    MethodLogger(methodNames, parent.classNames)
  }

  // ---------------------------------------------------------------------------
  // Records and the rendered line
  // ---------------------------------------------------------------------------

  /** A mutable JavaScript object: the `data` a caller passes, or the engine's `info`. */
  class Record {
    var fields: map<string, Json>

    constructor (fields: map<string, Json>)
      ensures this.fields == fields
    {
      this.fields := fields;
    }
  }

  /** A call handed to the logging engine: level, message and the data object's fields. */
  datatype EngineCall = EngineCall(level: string, message: string, data: map<string, Json>)

  /** `m[key]`, None for a missing key. */
  function Lookup(m: map<string, Json>, key: string): (v: Option<Json>) {
    if key in m then Some(m[key]) else None
  }

  /**
   * The object printf serialises: `info` without `message` and `timestamp`,
   * with `instance` replaced by `fallback` when it is missing or falsy.
   */
  function Tail(info: map<string, Json>, fallback: string): (t: map<string, Json>)
    requires fallback != ""
    ensures "message" !in t && "timestamp" !in t
    ensures "instance" in t && Truthy(t["instance"])
    ensures "instance" in info && Truthy(info["instance"]) ==> t["instance"] == info["instance"]
    ensures !("instance" in info && Truthy(info["instance"])) ==> t["instance"] == JStr(fallback)
    ensures forall k :: k in t && k != "instance" ==> k in info && t[k] == info[k]
    ensures forall k :: k in info && k != "message" && k != "timestamp" ==> k in t
  {
    var rest := info - {"message", "timestamp"};
    var instance := if "instance" in info && Truthy(info["instance"]) then info["instance"] else JStr(fallback);
    rest["instance" := instance]
  }

  /** The text before the JSON tail: `timestamp | level | instance | message `. */
  function Head(b: Builtins, info: map<string, Json>, fallback: string): (head: string)
    requires fallback != ""
  {
    Text(b, Lookup(info, "timestamp")) + " | " + Text(b, Lookup(info, "level")) + " | "
      + Text(b, Some(Tail(info, fallback)["instance"])) + " | " + Text(b, Lookup(info, "message")) + " "
  }

  /** The object serialised when serialising the tail throws: the error's message and stack. */
  function ErrorSummary(e: Thrown): (j: Json)
    ensures j.JObject? && "error" in j.fields && j.fields["error"] == JStr(e.message)
    ensures "stack" in j.fields <==> e.stack.Some?
    ensures e.stack.Some? ==> j.fields["stack"] == JStr(e.stack.value)
    ensures forall k :: k in j.fields ==> k == "error" || k == "stack"
  {
    JObject(if e.stack.Some? then map["error" := JStr(e.message), "stack" := JStr(e.stack.value)]
            else map["error" := JStr(e.message)])
  }

  /** JSON.stringify never throws on an error summary, whose fields are plain strings. */
  ghost predicate SummariesSerialise(b: Builtins) {
    forall e: Thrown :: b.jsonStringify(ErrorSummary(e)).Success?
  }

  /**
   * The printf format: the head followed by the serialised tail, or by the
   * serialised error summary when the tail cannot be serialised. As long as
   * error summaries serialise, rendering never throws.
   */
  function Render(b: Builtins, info: map<string, Json>, fallback: string): (r: Result<string, Thrown>)
    requires fallback != ""
    ensures r.Success? ==> Head(b, info, fallback) <= r.value
    ensures r.Success? ==> var json := r.value[|Head(b, info, fallback)|..];
      b.jsonStringify(JObject(Tail(info, fallback))) == Success(json) ||
      (b.jsonStringify(JObject(Tail(info, fallback))).Failure? &&
       b.jsonStringify(ErrorSummary(b.jsonStringify(JObject(Tail(info, fallback))).error)) == Success(json))
    ensures b.jsonStringify(JObject(Tail(info, fallback))).Success? ==>
      r == Success(Head(b, info, fallback) + b.jsonStringify(JObject(Tail(info, fallback))).value)
    ensures SummariesSerialise(b) ==> r.Success?
  {
    var head := Head(b, info, fallback);
    match b.jsonStringify(JObject(Tail(info, fallback)))
    case Success(json) => Success(head + json)
    case Failure(err) =>
      match b.jsonStringify(ErrorSummary(err))
      case Success(json) => Success(head + json)
      case Failure(e) => Failure(e)
  }

  // ---------------------------------------------------------------------------
  // The logger
  // ---------------------------------------------------------------------------

  /** The initial sink level: LOG_LEVEL when set and not empty, else `setup`. */
  function StartLevel(env: ProcessEnv): (level: string) {
    if Given(Raw(env, "LOG_LEVEL")) then env["LOG_LEVEL"] else "setup"
  }

  /** The logger's declaration of LOG_LEVEL, which resolves to a string. */
  method DeclareLogLevel(env: Environment, processEnv: ProcessEnv, b: Builtins) returns (level: string)
    modifies env
    ensures level == StartLevel(processEnv)
    ensures env.envMap == old(env.envMap)["LOG_LEVEL" := Stored(LogLevelInput, Str(level))]
  {
    var declared := env.AddEnvironmentVariable(LogLevelInput, processEnv, b);
    StringValue(LogLevelInput, Raw(processEnv, "LOG_LEVEL"), b);
    level := declared.value.s;
  }

  class MyLogger {
    const instanceName: string
    /** The level table the engine was created with. */
    const levels: LevelTable
    /** Whether the engine suppresses all output (NODE_ENV is `test`). */
    const silent: bool
    /** The engine's transports; their levels change in place. */
    const transports: array<Transport>

    /**
     * Declares LOG_LEVEL (default `setup`) in the environment store, builds the
     * level table and creates one console sink at that level.
     */
    constructor (env: Environment, processEnv: ProcessEnv, b: Builtins)
      modifies env
      ensures instanceName == InstanceName
      ensures levels == Levels
      ensures env.envMap == old(env.envMap)["LOG_LEVEL" := Stored(LogLevelInput, Str(StartLevel(processEnv)))]
      ensures fresh(transports) && transports[..] == [Transport(ConsoleName, StartLevel(processEnv))]
      ensures silent <==> env.Get("NODE_ENV") == Str("test")
    {
      var level := DeclareLogLevel(env, processEnv, b);
      var nodeEnv := env.Get("NODE_ENV");
      instanceName := InstanceName;
      levels := Levels;
      silent := nodeEnv == Str("test");
      var sinks := new Transport[1] (_ => Transport(ConsoleName, level));
      assert sinks[..] == [Transport(ConsoleName, level)];
      transports := sinks;
    }

    /** The position of the first sink named `name`, if any. */
    method FindTransport(name: string) returns (i: Option<nat>)
      ensures i == FirstIndex(transports[..], name)
    {
      var k := 0;
      while k < transports.Length
        invariant 0 <= k <= transports.Length
        invariant forall j :: 0 <= j < k ==> transports[j].name != name
      {
        if transports[k].name == name {
          return Some(k);
        }
        k := k + 1;
      }
      return None;
    }

    /** getConfiguration: the level names in table order and the sink names in sink order. */
    method GetConfiguration() returns (c: Configuration)
      ensures c.levels == levels.keys
      ensures |c.transports| == transports.Length
      ensures forall i :: 0 <= i < transports.Length ==> c.transports[i] == transports[i].name
    {
      var names := seq(transports.Length, i reads transports requires 0 <= i < transports.Length => transports[i].name);
      c := Configuration(levels.keys, names);
    }

    /**
     * updateLogLevel(level, transport = ''): rejects an empty level, a level
     * whose rank is missing or 0, and a non-empty transport name no sink has,
     * changing nothing; otherwise sets the level of the first sink with that
     * name, or of every sink when no name is given.
     */
    method UpdateLogLevel(level: string, transport: string) returns (r: Outcome<LogControlError>)
      modifies transports
      ensures level == "" ==> r == Fail(LevelRequired)
      ensures level != "" && !IsValidLevel(levels, level) ==> r == Fail(InvalidLevel(level))
      ensures (level != "" && IsValidLevel(levels, level) && transport != "" && FirstIndex(old(transports[..]), transport).None?)
                ==> r == Fail(InvalidTransport(transport))
      ensures r.Fail? ==> transports[..] == old(transports[..])
      ensures (level != "" && IsValidLevel(levels, level) && transport != "" && FirstIndex(old(transports[..]), transport).Some?)
                ==> var i := FirstIndex(old(transports[..]), transport).value;
                    r == Pass && transports[..] == old(transports[..])[i := old(transports[i]).(level := level)]
      ensures (level != "" && IsValidLevel(levels, level) && transport == "")
                ==> r == Pass && forall j :: 0 <= j < transports.Length ==> transports[j] == old(transports[j]).(level := level)
    {
      if level == "" {
        return Fail(LevelRequired);
      }
      if !IsValidLevel(levels, level) {
        return Fail(InvalidLevel(level));
      }
      if transport != "" {
        var found := FindTransport(transport);
        if found.None? {
          return Fail(InvalidTransport(transport));
        }
        var i := found.value;
        transports[i] := transports[i].(level := level);
      } else {
        for k := 0 to transports.Length
          invariant forall j :: 0 <= j < k ==> transports[j] == old(transports[j]).(level := level)
          invariant forall j :: k <= j < transports.Length ==> transports[j] == old(transports[j])
        {
          transports[k] := transports[k].(level := level);
        }
      }
      return Pass;
    }

    /**
     * The `log` of a class or method logger: stores the extra arguments under
     * `details` and the context's tag under `instance` in the caller's data
     * object, then hands level, message and data to the engine. An omitted
     * data object is a fresh empty one; a `null` one makes the first property
     * assignment throw a TypeError (None), and nothing reaches the engine.
     */
    method LogWithContext(ctx: Context, level: string, message: string, data: Record?, args: seq<Json>)
      returns (call: Option<EngineCall>)
      modifies data
      ensures data == null <==> call.None?
      ensures data != null ==>
        data.fields == old(data.fields)["details" := JArray(args)]["instance" := JStr(Tag(ctx))]
      ensures data != null ==> call == Some(EngineCall(level, message, data.fields))
    {
      if data == null {
        return None;
      }
      data.fields := data.fields["details" := JArray(args)];
      data.fields := data.fields["instance" := JStr(Tag(ctx))];
      call := Some(EngineCall(level, message, data.fields));
    }

    /**
     * The printf step of the engine's format: removes `message` and `timestamp`
     * from `info`, fills in `instance`, and renders the line.
     */
    method Printf(info: Record, b: Builtins) returns (line: Result<string, Thrown>)
      requires instanceName != ""
      modifies info
      ensures info.fields == Tail(old(info.fields), instanceName)
      ensures line == Render(b, old(info.fields), instanceName)
    {
      ghost var before := info.fields;
      var message := Lookup(info.fields, "message");
      var timestamp := Lookup(info.fields, "timestamp");
      info.fields := info.fields - {"message", "timestamp"};
      var instance := if "instance" in info.fields && Truthy(info.fields["instance"])
                      then info.fields["instance"] else JStr(instanceName);
      info.fields := info.fields["instance" := instance];
      var head := Text(b, timestamp) + " | " + Text(b, Lookup(info.fields, "level")) + " | "
                  + Text(b, Some(instance)) + " | " + Text(b, message) + " ";
      assert head == Head(b, before, instanceName);
      match b.jsonStringify(JObject(info.fields))
      case Success(json) =>
        line := Success(head + json);
      case Failure(err) =>
        match b.jsonStringify(ErrorSummary(err))
        case Success(json) => line := Success(head + json);
        case Failure(e) => line := Failure(e);
    }
  }

  /** A logger booted under NODE_ENV=test with no LOG_LEVEL. */
  method BootScenario(b: Builtins) {
    var processEnv: ProcessEnv := map["NODE_ENV" := "test"];
    var env := new Environment(processEnv, "/srv", b);
    var logger := new MyLogger(env, processEnv, b);
    assert env.Get("LOG_LEVEL") == Str("setup");
    assert logger.silent;
    assert logger.transports[..] == [Transport(ConsoleName, "setup")];
    CustomLevelTable();
    var c := logger.GetConfiguration();
    assert c.levels == CustomList && c.transports == [ConsoleName];
    ValidLevels();
    UpdateScenario(logger);
  }

  /**
   * Level changes on a logger with one console sink: an unknown level,
   * `fatal`, an unknown sink, and a valid level for every sink.
   */
  method UpdateScenario(logger: MyLogger)
    requires forall level :: level !in CustomList ==> !IsValidLevel(logger.levels, level)
    requires forall i :: 0 <= i < |CustomList| ==> (IsValidLevel(logger.levels, CustomList[i]) <==> i != 0)
    requires logger.transports[..] == [Transport(ConsoleName, "setup")]
    modifies logger.transports
  {
    assert CustomList[0] == "fatal" && CustomList[1] == "error";
    var r := logger.UpdateLogLevel("not-a-level", "");
    assert r == Fail(InvalidLevel("not-a-level"));
    r := logger.UpdateLogLevel("fatal", "");
    assert r == Fail(InvalidLevel("fatal")) && logger.transports[0].level == "setup";
    r := logger.UpdateLogLevel("error", "not-a-sink");
    assert r == Fail(InvalidTransport("not-a-sink"));
    r := logger.UpdateLogLevel("error", "");
    assert r == Pass && logger.transports[0] == Transport(ConsoleName, "error");
  }

  /** A class logger's `log` with a data object, and with `null`. */
  method LogScenario(logger: MyLogger) {
    var data := new Record(map["user" := JStr("ada")]);
    var call := logger.LogWithContext(CreateClassLogger(["Foo"]), "info", "signed in", data, []);
    assert Tag(ClassLogger(["Foo"])) == "Foo.app";
    assert call.Some? && call.value.data["instance"] == JStr("Foo.app") && call.value.data["user"] == JStr("ada");
    var none := logger.LogWithContext(CreateClassLogger(["Foo"]), "info", "signed in", null, []);
    assert none.None?;
  }

  /** The tags of a class logger and of a method logger made from it. */
  method TagScenario() {
    var foo := CreateClassLogger(["Foo"]);
    assert Tag(foo) == "Foo.app";
    var bar := CreateMethodLogger(foo, ["bar"]);
    assert Tag(bar) == "bar.Foo.app";
  }
}
