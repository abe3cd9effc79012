/**
 * The environment store of src/factories/environment.ts: a registry from
 * variable name to a typed record, filled from a snapshot of the process
 * environment when a variable is declared.
 */
module EnvironmentFactory {
  import opened Wrappers
  import opened JsValues

  /** The declared type of a variable; it governs the conversion of the raw string. */
  datatype VarType = StringType | NumberType | BooleanType | JsonType

  /** A resolved value: one case per declared type. */
  datatype Value = Str(s: string) | Num(n: real) | Bool(b: bool) | Obj(json: Json)

  /** The argument of addEnvironmentVariable; None marks an option that was not given. */
  datatype VariableInput = VariableInput(
    name: string,
    varType: Option<VarType>,
    live: Option<bool>,
    defaultValue: Option<Value>)

  /** A stored record: name, type, live flag, default and resolved value. */
  datatype Variable = Variable(
    name: string,
    varType: VarType,
    live: bool,
    defaultValue: Value,
    value: Value)

  /** The process environment: name to raw string. */
  type ProcessEnv = map<string, string>

  /** `process.env[name]`: the raw string, None when the name is not set. */
  function Raw(env: ProcessEnv, name: string): (raw: Option<string>) {
    if name in env then Some(env[name]) else None
  }

  /** A raw value that JavaScript treats as true: present and not empty. */
  predicate Given(raw: Option<string>) {
    raw.Some? && raw.value != ""
  }

  /** The declared type, `string` when none is given. */
  function TypeOf(input: VariableInput): (t: VarType) {
    if input.varType.Some? then input.varType.value else StringType
  }

  /** The default, which is the variable's own name when none is given. */
  function DefaultOf(input: VariableInput): (d: Value) {
    if input.defaultValue.Some? then input.defaultValue.value else Str(input.name)
  }

  /**
   * The record stored for a declared variable once its value is known: the
   * given options over the defaults type `string`, not live, and the name as
   * default.
   */
  function Stored(input: VariableInput, value: Value): (v: Variable)
    ensures v.name == input.name && v.value == value
    ensures v.varType == TypeOf(input)
    ensures v.live == (input.live.Some? && input.live.value)
    ensures v.defaultValue == DefaultOf(input)
  {
    Variable(input.name, TypeOf(input), if input.live.Some? then input.live.value else false,
             DefaultOf(input), value)
  }

  /**
   * The conversion switch of addEnvironmentVariable: the value for a variable
   * whose raw environment string is `raw`. The only way it fails is a json
   * variable whose non-empty raw string does not parse.
   */
  function Resolve(input: VariableInput, raw: Option<string>, b: Builtins): (r: Result<Value, Thrown>)
    ensures r.Failure? <==> TypeOf(input) == JsonType && Given(raw) && b.jsonParse(raw.value).Failure?
    ensures r.Failure? ==> r.error == b.jsonParse(raw.value).error
  {
    match TypeOf(input)
    case NumberType =>
      var n := if raw.Some? then b.number(raw.value) else None;
      Success(if n.Some? && n.value != 0.0 then Num(n.value) else DefaultOf(input))
    case BooleanType =>
      Success(Bool(raw == Some("true")))
    case JsonType =>
      if !Given(raw) then Success(Obj(JObject(map[])))
      else (
        match b.jsonParse(raw.value)
        case Success(j) => Success(Obj(j))
        case Failure(e) => Failure(e))
    case StringType =>
      Success(if Given(raw) then Str(raw.value) else DefaultOf(input))
  }

  /** A string variable: the raw string when given, else the default (by default the name). */
  lemma StringValue(input: VariableInput, raw: Option<string>, b: Builtins)
    requires TypeOf(input) == StringType
    ensures Given(raw) ==> Resolve(input, raw, b) == Success(Str(raw.value))
    ensures !Given(raw) ==> Resolve(input, raw, b) == Success(DefaultOf(input))
    ensures !Given(raw) && input.defaultValue.None? ==> Resolve(input, raw, b) == Success(Str(input.name))
  {
  }

  /**
   * A string variable whose default, if any, is a string resolves to a string:
   * the case of LOG_LEVEL.
   */
  lemma StringValueIsString(input: VariableInput, raw: Option<string>, b: Builtins)
    requires TypeOf(input) == StringType
    requires input.defaultValue.Some? ==> input.defaultValue.value.Str?
    ensures Resolve(input, raw, b).Success? && Resolve(input, raw, b).value.Str?
  {
  }

  /**
   * A number variable: a nonzero parse of the raw string, or else the default.
   * NaN (absent or unparsable) and zero are treated alike, and without an
   * explicit default the fallback is the name, a string.
   */
  lemma NumberValue(input: VariableInput, raw: Option<string>, b: Builtins)
    requires TypeOf(input) == NumberType
    ensures var r := Resolve(input, raw, b);
      r.Success? &&
      (r.value == DefaultOf(input) ||
       (raw.Some? && b.number(raw.value) == Some(r.value.n) && r.value == Num(r.value.n) && r.value.n != 0.0))
    ensures raw.Some? && b.number(raw.value).Some? && b.number(raw.value).value != 0.0 ==>
      Resolve(input, raw, b) == Success(Num(b.number(raw.value).value))
    ensures raw.None? || b.number(raw.value).None? || b.number(raw.value) == Some(0.0) ==>
      Resolve(input, raw, b) == Success(DefaultOf(input))
    ensures input.defaultValue.None? && (raw.None? || b.number(raw.value) == Some(0.0)) ==>
      Resolve(input, raw, b) == Success(Str(input.name))
  {
  }

  /** A boolean variable is true exactly when the raw string is "true"; the default plays no part. */
  lemma BooleanValue(input: VariableInput, raw: Option<string>, b: Builtins, otherDefault: Option<Value>)
    requires TypeOf(input) == BooleanType
    ensures Resolve(input, raw, b).Success? && Resolve(input, raw, b).value.Bool?
    ensures Resolve(input, raw, b).value.b <==> raw == Some("true")
    ensures Resolve(input.(defaultValue := otherDefault), raw, b) == Resolve(input, raw, b)
  {
  }

  /** A json variable: an empty object when the raw string is absent or empty, else the parse. */
  lemma JsonValue(input: VariableInput, raw: Option<string>, b: Builtins)
    requires TypeOf(input) == JsonType
    ensures !Given(raw) ==> Resolve(input, raw, b) == Success(Obj(JObject(map[])))
    ensures Given(raw) && b.jsonParse(raw.value).Success? ==>
      Resolve(input, raw, b) == Success(Obj(b.jsonParse(raw.value).value))
  {
  }

  /** The registry of declared variables. */
  class Environment {
    var envMap: map<string, Variable>

    /** Declares NODE_ENV from the process environment and CWD from the working directory. */
    constructor (env: ProcessEnv, cwd: string, b: Builtins)
      ensures envMap == map[
        "NODE_ENV" := Stored(VariableInput("NODE_ENV", None, None, None),
                             if Given(Raw(env, "NODE_ENV")) then Str(env["NODE_ENV"]) else Str("NODE_ENV")),
        "CWD" := Variable("CWD", JsonType, false, Str(cwd), Str(cwd))]
    {
      envMap := map[];
      new;
      var _ := AddEnvironmentVariable(VariableInput("NODE_ENV", None, None, None), env, b);
      var _ := AddCustomVariable("CWD", Str(cwd));
    }

    /** Stores `value` verbatim as a json-typed, non-live variable and returns it. */
    method AddCustomVariable(name: string, value: Value) returns (r: Value)
      modifies this
      ensures r == value
      ensures envMap == old(envMap)[name := Variable(name, JsonType, false, value, value)]
      ensures Get(name) == value
      ensures forall n :: n != name ==> Get(n) == old(Get(n))
    {
      envMap := envMap[name := Variable(name, JsonType, false, value, value)];
      r := value;
    }

    /**
     * Declares a variable: resolves its raw environment string, replaces any
     * record under the same name and returns the value. A json variable whose
     * raw string does not parse throws before the registry is touched.
     */
    method AddEnvironmentVariable(input: VariableInput, env: ProcessEnv, b: Builtins)
      returns (r: Result<Value, Thrown>)
      modifies this
      ensures r == Resolve(input, Raw(env, input.name), b)
      ensures r.Success? ==> envMap == old(envMap)[input.name := Stored(input, r.value)]
      ensures r.Success? ==> Get(input.name) == r.value
      ensures r.Success? ==> forall n :: n != input.name ==> Get(n) == old(Get(n))
      ensures r.Failure? ==> envMap == old(envMap)
    {
      r := Resolve(input, Raw(env, input.name), b);
      if r.Success? {
        envMap := envMap[input.name := Stored(input, r.value)];
      }
    }

    /** The value stored under `name`, or the empty string for a name never declared. */
    function Get(name: string): (v: Value)
      reads this
      ensures name in envMap ==> v == envMap[name].value
      ensures name !in envMap ==> v == Str("")
    {
      if name in envMap then envMap[name].value else Str("")
    }
  }

  /**
   * The declarations of the environment test suite, in order, against one
   * environment snapshot, and the lookups made afterwards.
   */
  method DeclarationScenario(store: Environment, b: Builtins)
    modifies store
  {
    var env: ProcessEnv := map["TEST_PORT" := "4000", "TEST_HOST" := "localhost",
                               "TEST_SALT" := "10", "TEST_BOOL" := "true"];
    assert Raw(env, "TEST_PORT") == Some("4000") && Raw(env, "SOCKET_PORT") == None;
    var port := store.AddEnvironmentVariable(VariableInput("TEST_PORT", None, None, None), env, b);
    assert port == Success(Str("4000"));
    var socket := store.AddEnvironmentVariable(VariableInput("SOCKET", None, None, Some(Str("/sockets"))), env, b);
    var socketPort := store.AddEnvironmentVariable(VariableInput("SOCKET_PORT", None, None, None), env, b);
    assert socketPort == Success(Str("SOCKET_PORT"));
    assert Raw(env, "TEST_BOOL") == Some("true");
    var flag := store.AddEnvironmentVariable(VariableInput("TEST_BOOL", Some(BooleanType), None, None), env, b);
    assert flag == Success(Bool(true));

    // The raw variables are removed from the process environment; lookups still see the cached values.
    env := map[];
    assert store.Get("TEST_PORT") == Str("4000");
    assert store.Get("SOCKET_PORT") == Str("SOCKET_PORT");
  }

  /** A fresh store holds only NODE_ENV and CWD; any other name reads as the empty string. */
  method BootScenario(b: Builtins) {
    var store := new Environment(map[], "/srv", b);
    assert store.Get("CWD") == Str("/srv");
    assert store.Get("NODE_ENV") == Str("NODE_ENV");
    assert store.Get("/sockets") == Str("");
  }
}
