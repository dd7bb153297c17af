/**
 * The core builtin library: the eight native functions every Volpe environment
 * starts with. Each receives its argument list (already checked against its
 * registered arity) and either returns a value or throws one of the evaluator's
 * errors, modelled as a `Result`.
 */
module CoreLib {
  import opened Wrappers
  import opened Evaluation

  /** The runtime class of a value, as `GetType()` reports it and as errors name it. */
  datatype TypeTag =
    | NumberType | StringType | VoidType | FunctionReferenceType | ArrayType | ObjectType | BooleanType

  function TagOf(v: Value): TypeTag {
    match v
    case Number(_) => NumberType
    case String(_) => StringType
    case Void => VoidType
    case FunctionReference(_, _) => FunctionReferenceType
    case Array(_) => ArrayType
    case Object(_) => ObjectType
    case Boolean(_) => BooleanType
  }

  /** The errors a builtin of this library can throw, with their payloads (source positions omitted). */
  datatype VolpeError =
    | TypeConversion(value: Value, target: TypeTag)
    | InvalidValueType(expected: TypeTag, actual: TypeTag)
    | ParameterCountMismatch(functionName: string, expectedCount: int, actualCount: int)
    | UserThrown(message: string)

  type Outcome = Result<Value, VolpeError>

  /**
   * `int`: a number is returned unchanged; a string the host parser accepts becomes
   * that number; every other argument is a conversion error.
   */
  function Int(values: seq<Value>, parse: string -> Option<Double>): (r: Outcome)
    requires |values| >= 1
    ensures r.Success? <==> values[0].Number? || (values[0].String? && parse(values[0].text).Some?)
    ensures r.Success? ==> r.value.Number?
    ensures values[0].Number? ==> r == Success(values[0])
    ensures values[0].String? && r.Success? ==> Some(r.value.number) == parse(values[0].text)
    ensures r.Failure? ==> r.error == TypeConversion(values[0], NumberType)
  {
    var value := values[0];
    if value.Number? then Success(value)
    else if value.String? && parse(value.text).Some? then Success(Number(parse(value.text).value))
    else Failure(TypeConversion(value, NumberType))
  }

  /**
   * `string`: a string is returned unchanged, a number is formatted by the host, and
   * any other value becomes its `representation` (the text `Value.Representation`
   * gives for it). It never fails.
   */
  function StringOf(values: seq<Value>, format: Double -> string, representation: string): (r: Outcome)
    requires |values| >= 1
    ensures r.Success? && r.value.String?
    ensures values[0].String? ==> r.value == values[0]
    ensures values[0].Number? ==> r.value.text == format(values[0].number)
    ensures !values[0].String? && !values[0].Number? ==> r.value.text == representation
  {
    var value := values[0];
    if value.String? then Success(value)
    else if value.Number? then Success(String(format(value.number)))
    else Success(String(representation))
  }

  /** `repr`: always succeeds with the argument's representation as a string. */
  function Repr(values: seq<Value>, representation: string): (r: Outcome)
    requires |values| >= 1
    ensures r.Success? && r.value == String(representation)
  {
    Success(String(representation))
  }

  /** The type names `type` reports. */
  const TypeNames: set<string> :=
    {"number", "string", "void", "function_reference", "array", "object", "boolean"}

  /** The name `type` reports for each variant. */
  function TypeName(t: TypeTag): (name: string)
    ensures name in TypeNames
  {
    match t
    case NumberType => "number"
    case StringType => "string"
    case VoidType => "void"
    case FunctionReferenceType => "function_reference"
    case ArrayType => "array"
    case ObjectType => "object"
    case BooleanType => "boolean"
  }

  /** Different variants get different names, so the name identifies the variant. */
  lemma TypeNameIsOneToOne(s: TypeTag, t: TypeTag)
    ensures TypeName(s) == TypeName(t) <==> s == t
  {
  }

  /** `type`: the name of the argument's variant; total over all seven variants. */
  function Type(values: seq<Value>): (r: Outcome)
    requires |values| >= 1
    ensures r == Success(String(TypeName(TagOf(values[0]))))
    ensures r.value.text in TypeNames
  {
    Success(String(
      match values[0]
      case Number(_) => "number"
      case String(_) => "string"
      case Void => "void"
      case FunctionReference(_, _) => "function_reference"
      case Array(_) => "array"
      case Object(_) => "object"
      case Boolean(_) => "boolean"))
  }

  /**
   * `invoke`: the first argument must be a function reference; the remaining
   * arguments, of which there must be at least the callee's parameter count, are
   * handed to `call` (the callee's own invocation, which is not part of this model)
   * exactly as given.
   */
  function Invoke(values: seq<Value>, call: (Function, seq<Value>) -> Outcome): (r: Outcome)
    requires |values| >= 1
    ensures !values[0].FunctionReference? ==>
      r == Failure(InvalidValueType(FunctionReferenceType, TagOf(values[0])))
    ensures values[0].FunctionReference? && |values| - 1 < values[0].callee.ParameterCount() ==>
      r == Failure(ParameterCountMismatch(values[0].name, values[0].callee.ParameterCount(), |values| - 1))
    ensures values[0].FunctionReference? && |values| - 1 >= values[0].callee.ParameterCount() ==>
      r == call(values[0].callee, values[1..])
  {
    if !values[0].FunctionReference? then
      Failure(InvalidValueType(FunctionReferenceType, TagOf(values[0])))
    else if |values| - 1 < values[0].callee.ParameterCount() then
      Failure(ParameterCountMismatch(values[0].name, values[0].callee.ParameterCount(), |values| - 1))
    else
      call(values[0].callee, values[1..])
  }

  /** `error`: never returns a value; a string argument is thrown as the user's message. */
  function Error(values: seq<Value>): (r: Outcome)
    requires |values| >= 1
    ensures r.Failure?
    ensures values[0].String? ==> r.error == UserThrown(values[0].text)
    ensures !values[0].String? ==> r.error == InvalidValueType(StringType, TagOf(values[0]))
  {
    if !values[0].String? then Failure(InvalidValueType(StringType, TagOf(values[0])))
    else Failure(UserThrown(values[0].text))
  }

  /**
   * `clone`: an array or object gets fresh storage with the same contents, so the
   * copy no longer aliases the original; every other value is returned as an equal value.
   */
  method Clone(values: seq<Value>) returns (r: Outcome)
    requires |values| >= 1
    ensures r.Success?
    ensures values[0].Array? ==>
      r.value.Array? && fresh(r.value.elements) && r.value.elements.items == values[0].elements.items
    ensures values[0].Object? ==>
      r.value.Object? && fresh(r.value.members) && r.value.members.fields == values[0].members.fields
    ensures !values[0].Array? && !values[0].Object? ==> r.value == values[0]
  {
    match values[0]
    case Array(store) =>
      var copy := store.Copy();
      return Success(Array(copy));
    case Object(store) =>
      var copy := store.Copy();
      return Success(Object(copy));
    case _ =>
      return Success(values[0]);
  }

  /** The argument checks of `hook` as written: the name check reports the wrong expected type. */
  function HookArgumentsAsWritten(values: seq<Value>): (r: Result<(string, FunctionRef, FunctionRef), VolpeError>)
    requires |values| >= 3
    ensures r.Success? <==> values[0].String? && values[1].FunctionReference? && values[2].FunctionReference?
    ensures r.Success? ==> r.value == (values[0].text, values[1], values[2])
    ensures !values[0].String? ==> r == Failure(InvalidValueType(FunctionReferenceType, TagOf(values[0])))
    ensures values[0].String? && !values[1].FunctionReference? ==>
      r == Failure(InvalidValueType(FunctionReferenceType, TagOf(values[1])))
    ensures values[0].String? && values[1].FunctionReference? && !values[2].FunctionReference? ==>
      r == Failure(InvalidValueType(FunctionReferenceType, TagOf(values[2])))
  {
    if !values[0].String? then Failure(InvalidValueType(FunctionReferenceType, TagOf(values[0])))
    else if !values[1].FunctionReference? then Failure(InvalidValueType(FunctionReferenceType, TagOf(values[1])))
    else if !values[2].FunctionReference? then Failure(InvalidValueType(FunctionReferenceType, TagOf(values[2])))
    else Success((values[0].text, values[1], values[2]))
  }

  /**
   * The argument checks of `hook`, in order: a string name, then a getter and a setter
   * function reference. The first check that fails decides the error, which names the
   * type that check wanted and the type it got.
   */
  function HookArguments(values: seq<Value>): (r: Result<(string, FunctionRef, FunctionRef), VolpeError>)
    requires |values| >= 3
    ensures r.Success? <==> values[0].String? && values[1].FunctionReference? && values[2].FunctionReference?
    ensures r.Success? ==> r.value == (values[0].text, values[1], values[2])
    ensures !values[0].String? ==> r == Failure(InvalidValueType(StringType, TagOf(values[0])))
    ensures values[0].String? && !values[1].FunctionReference? ==>
      r == Failure(InvalidValueType(FunctionReferenceType, TagOf(values[1])))
    ensures values[0].String? && values[1].FunctionReference? && !values[2].FunctionReference? ==>
      r == Failure(InvalidValueType(FunctionReferenceType, TagOf(values[2])))
  {
    if !values[0].String? then Failure(InvalidValueType(StringType, TagOf(values[0])))
    else if !values[1].FunctionReference? then Failure(InvalidValueType(FunctionReferenceType, TagOf(values[1])))
    else if !values[2].FunctionReference? then Failure(InvalidValueType(FunctionReferenceType, TagOf(values[2])))
    else Success((values[0].text, values[1], values[2]))
  }

  /**
   * `hook`: after the argument checks, installs the getter/setter pair for the name in
   * the environment's hook table and returns void. A failed check leaves the table alone.
   */
  method Hook(env: Environment, values: seq<Value>) returns (r: Outcome)
    requires |values| >= 3
    modifies env
    ensures HookArguments(values).Failure? ==>
      r == Failure(HookArguments(values).error) && env.hooks == old(env.hooks)
    ensures HookArguments(values).Success? ==>
      var (name, getter, setter) := HookArguments(values).value;
      r == Success(Void) && env.hooks == old(env.hooks)[name := (getter, setter)]
  {
    var checked := HookArguments(values);
    if checked.Failure? {
      return Failure(checked.error);
    }
    var (name, getter, setter) := checked.value;
    env.HookVariableToGetterAndSetter(name, (getter, setter));
    return Success(Void);
  }

  /** The builtins this library registers, with their arities. */
  function FunctionExports(): (exports: seq<BuiltinFunction>)
    ensures |exports| == 8
  {
    [ BuiltinFunction("int", 1), BuiltinFunction("string", 1), BuiltinFunction("repr", 1),
      BuiltinFunction("hook", 3), BuiltinFunction("type", 1), BuiltinFunction("invoke", 1),
      BuiltinFunction("error", 1), BuiltinFunction("clone", 1) ]
  }

  /** No name is registered twice, so a root scope can be built from the exports. */
  lemma ExportedNamesAreDistinct()
    ensures DistinctNames(FunctionExports())
  {
  }

  /** The library registers exactly the eight core builtins. */
  lemma ExportedNames()
    ensures Names(FunctionExports()) == {"int", "string", "repr", "hook", "type", "invoke", "error", "clone"}
  {
  }

  /** `hook` takes three arguments; every other core builtin takes one. */
  lemma ExportedArities()
    ensures forall b :: b in FunctionExports() ==> b.parameterCount == if b.name == "hook" then 3 else 1
  {
  }

  /**
   * An environment built from this library's exports: its root scope binds exactly
   * the eight core names, each to a builtin with its registered arity, and no hooks.
   */
  method CoreEnvironment() returns (env: Environment)
    ensures fresh(env) && env.hooks == map[] && env.scope.variables == map[]
    ensures env.scope.functions.Keys == {"int", "string", "repr", "hook", "type", "invoke", "error", "clone"}
    ensures forall n :: n in env.scope.functions ==>
      env.scope.functions[n] == Builtin(if n == "hook" then 3 else 1, n)
  {
    ExportedNamesAreDistinct();
    ExportedNames();
    ExportedArities();
    env := new Environment(FunctionExports());
    forall n | n in env.scope.functions
      ensures env.scope.functions[n] == Builtin(if n == "hook" then 3 else 1, n)
    {
      var b :| b in FunctionExports() && b.name == n;
    }
  }

  /** `type` gives two values the same name exactly when they are of the same variant. */
  lemma TypeDistinguishesVariants(u: Value, v: Value)
    ensures Type([u]) == Type([v]) <==> TagOf(u) == TagOf(v)
  {
    TypeNameIsOneToOne(TagOf(u), TagOf(v));
  }

  /** A number `int` produced is returned unchanged by a second `int`. */
  lemma IntIsIdempotent(values: seq<Value>, parse: string -> Option<Double>)
    requires |values| >= 1 && Int(values, parse).Success?
    ensures Int([Int(values, parse).value], parse) == Int(values, parse)
  {
  }

  /**
   * `int(string(n))` gives back `n` whenever the host parser reads back what the host
   * formatter wrote for `n`.
   */
  lemma NumberSurvivesStringRoundTrip(n: Double, parse: string -> Option<Double>, format: Double -> string, representation: string)
    requires parse(format(n)) == Some(n)
    ensures Int([StringOf([Number(n)], format, representation).value], parse) == Success(Number(n))
  {
  }

  /** On anything but a string or a number, `string` and `repr` agree. */
  lemma StringFallsBackToRepr(v: Value, format: Double -> string, representation: string)
    requires !v.String? && !v.Number?
    ensures StringOf([v], format, representation) == Repr([v], representation)
  {
  }

  /** With enough arguments, `invoke` hands exactly the remaining arguments to the callee. */
  lemma InvokeForwardsArguments(f: FunctionRef, args: seq<Value>, call: (Function, seq<Value>) -> Outcome)
    requires |args| >= f.callee.ParameterCount()
    ensures Invoke([f] + args, call) == call(f.callee, args)
  {
    assert ([f] + args)[1..] == args;
  }

  /** With too few arguments, `invoke` reports the callee's name, its arity and the count given. */
  lemma InvokeRejectsShortArgumentLists(f: FunctionRef, args: seq<Value>, call: (Function, seq<Value>) -> Outcome)
    requires |args| < f.callee.ParameterCount()
    ensures Invoke([f] + args, call) == Failure(ParameterCountMismatch(f.name, f.callee.ParameterCount(), |args|))
  {
  }

  /** Every error of the corrected checks names a type other than the one received. */
  lemma HookErrorNamesWantedType(values: seq<Value>)
    requires |values| >= 3 && HookArguments(values).Failure?
    ensures HookArguments(values).error.InvalidValueType?
    ensures HookArguments(values).error.expected != HookArguments(values).error.actual
  {
  }

  /**
   * The as-written and corrected checks differ only in the error of a failed name
   * check, and there only in the expected type: both report the type received.
   */
  lemma HookChecksDifferOnlyInNameError(values: seq<Value>)
    requires |values| >= 3
    ensures values[0].String? ==> HookArgumentsAsWritten(values) == HookArguments(values)
    ensures !values[0].String? ==>
      HookArgumentsAsWritten(values).error.actual == HookArguments(values).error.actual == TagOf(values[0])
    ensures !values[0].String? ==>
      HookArgumentsAsWritten(values).error.expected == FunctionReferenceType &&
      HookArguments(values).error.expected == StringType
  {
  }

  /**
   * As written, `hook(f, f, f)` with a function reference `f` fails its name check yet
   * reports that it expected a function reference and received one.
   */
  lemma HookNameErrorAsWrittenIsSelfContradictory(f: FunctionRef)
    ensures HookArgumentsAsWritten([f, f, f]) == Failure(InvalidValueType(FunctionReferenceType, FunctionReferenceType))
  {
  }
}
