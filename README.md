# Volpe evaluator core: scopes and the core builtin library

A Dafny model of two parts of the Volpe scripting language's evaluator:

- **`Scope`**, the lexical frame (`Volpe/Evaluation/Scope.cs`). It holds local variables,
  local functions and an optional parent frame. It is modelled as the class
  `Evaluation.Scope` with `map` fields that its methods update in place. The parent is a
  `const`, which matches the C# get-only `Parent` that only the constructor sets, so no
  operation can change it. An `ancestors` sequence, also fixed at construction, records the
  parent chain that `parent` determines. `Valid()` ties it to `parent` and makes the chain
  finite. Lookups read the whole chain
  (`reads Repr()`). Assignment may write any frame on it (`modifies Repr()`), and its
  contract says which frame it actually writes.
- **The core builtin library** (`Furball.Volpe/Evaluation/CoreLib/Core.cs`). These are the
  eight native functions `int`, `string`, `repr`, `hook`, `type`, `invoke`, `error` and
  `clone`, and the table that registers them with their arities.
  - The pure builtins are functions from the argument list to a
    `Result<Value, VolpeError>`. A thrown exception becomes `Failure(error)`, carrying the
    error kind and its payload.
  - `hook` is a method on the `Environment` object, whose hook table it updates.
  - `clone` is a method, because it allocates fresh array or object storage.

Runtime values are the datatype `Evaluation.Value` with seven variants. Arrays and objects
hold references to `ArrayStore` and `ObjectStore` objects. Two values can therefore alias
one store, and `clone` breaks that aliasing. A user-defined function captures its defining
`Scope`, so `Value`, `Function` and `Scope` live in one module. `scenarios.dfy` holds small
client programs, proved from the contracts alone. They show the shadowing, assignment,
function-declaration and aliasing behaviour that a script observes.

In two places the code does less than the evident intent of a lexical scope chain, and the model follows the code:

- The apparent intent is that a function declaration is refused when the name exists anywhere
  up the chain. `TrySetFunction` checks only the current frame and the immediate parent's local
  functions (`Scope.cs:42,45`). A name declared only in a grandparent is accepted
  (`Scenarios.FunctionCheckClimbsOneFrame`).
- The apparent intent is that a non-shadowing assignment updates the nearest existing binding
  anywhere up the chain. `SetVariableValue(…, false)` forwards only when the immediate parent binds
  the name locally (`Scope.cs:69`). The forwarded call shadows, so it writes that parent's
  own map. If only a grandparent binds the name, the write creates a local binding
  (`Scenarios.AssignmentClimbsOneFrame`). The forwarding also happens when the current
  frame has its own binding of the name; that local binding then keeps hiding the parent's
  updated one.

## Model

| member | source | states |
|---|---|---|
| `Evaluation.BuiltinTable` | Volpe/Evaluation/Scope.cs:17 | the function table built from a list of builtins with distinct names has exactly those names as keys, and each is bound to a builtin function with that entry's arity and callback |
| `Evaluation.Scope.WithBuiltins` | Volpe/Evaluation/Scope.cs:14-18 | the builtins constructor gives a valid root frame with no parent, no variables, and exactly the listed builtins as functions |
| `Evaluation.Environment.constructor` | Furball.Volpe.Repl/Program.cs:25-43 | a new environment has a root scope holding exactly the given builtins, with no variables, and an empty hook table |
| `Evaluation.Scope.Root` | Volpe/Evaluation/Scope.cs:20-22 | the parameterless constructor gives a valid root frame with empty variable and function maps |
| `Evaluation.Scope.Child` | Volpe/Evaluation/Scope.cs:24-27 | `Scope(parent)` has empty local maps and `parent` as its parent, and its chain is itself followed by the parent's chain |
| `Evaluation.Scope.AncestorsShorter` | Volpe/Evaluation/Scope.cs:24-27 | every frame on a valid parent chain is valid and has a strictly shorter chain, so no frame is its own ancestor and recursive walks up the chain terminate |
| `Evaluation.Scope.HasVariable` | Volpe/Evaluation/Scope.cs:64 | the variable test is local: it asks only this frame's map, never the parent's. With it, `TryGetVariableValue` states that a local binding is what the lookup returns, and that on a root frame the lookup succeeds exactly when the test does |
| `Evaluation.Scope.HasFunction` | Volpe/Evaluation/Scope.cs:65 | the function test is local in the same way. `TrySetFunction` applies it to this frame and to the immediate parent only |
| `Evaluation.Scope.TryGetVariableValue` | Volpe/Evaluation/Scope.cs:53-62 | a name bound in this frame is found with this frame's value, whatever the parents bind. A frame without a parent finds a name exactly when it binds it locally. The whole-chain result is `VariableLookupFindsNearestBinding` |
| `Evaluation.Scope.TryGetFunctionReference` | Volpe/Evaluation/Scope.cs:29-38 | the same two facts for functions. The whole-chain result is `FunctionLookupFindsNearestBinding` |
| `Evaluation.Scope.VariableLookupFindsNearestBinding` | Volpe/Evaluation/Scope.cs:53-62 | `TryGetVariableValue` (this frame first, then the parent's lookup, and nothing when there is no parent) succeeds exactly when some frame on the chain binds the name, and it yields the value of the nearest such frame |
| `Evaluation.Scope.FunctionLookupFindsNearestBinding` | Volpe/Evaluation/Scope.cs:29-38 | `TryGetFunctionReference` has the same nearest-binding result over the frames' function maps |
| `Evaluation.Scope.TrySetFunction` | Volpe/Evaluation/Scope.cs:40-51 | the declaration is accepted exactly when neither this frame nor the immediate parent has a local function of that name. On acceptance the name is bound locally and a lookup from this frame finds the new function. On refusal the function map is unchanged. The variables are never changed, and no other frame is touched |
| `Evaluation.Scope.SetVariableValue` | Volpe/Evaluation/Scope.cs:67-79 | without shadowing, and when the immediate parent binds the name locally, only the parent's binding is set and a lookup from the parent yields the value. In every other case (shadowing, no parent, or a parent without a local binding) the binding goes into this frame and a lookup from this frame yields the value. No other frame's variables and no function map change |
| `Evaluation.Environment.HookVariableToGetterAndSetter` | Furball.Volpe/Evaluation/CoreLib/Core.cs:53 | the hook table maps the name to the given getter/setter pair, and every other entry is unchanged |
| `Evaluation.ArrayStore.Copy` | Furball.Volpe/Evaluation/CoreLib/Core.cs:97-98 | an array copy is a fresh store with the same items |
| `Evaluation.ObjectStore.Copy` | Furball.Volpe/Evaluation/CoreLib/Core.cs:100-101 | an object copy is a fresh store with the same fields |
| `CoreLib.Int` | Furball.Volpe/Evaluation/CoreLib/Core.cs:13-24 | `int` succeeds exactly on a number or on a string that the host parser accepts. A number comes back unchanged, a parsed string gives the parsed number, and every other argument fails with `TypeConversion(argument, Number)` |
| `CoreLib.IntIsIdempotent` | Furball.Volpe/Evaluation/CoreLib/Core.cs:13-24 | applying `int` to a number that `int` produced gives the same number back |
| `CoreLib.StringOf` | Furball.Volpe/Evaluation/CoreLib/Core.cs:26-36 | `string` never fails and always gives a string: a string argument unchanged, a number as the host formats it, anything else as its representation |
| `CoreLib.NumberSurvivesStringRoundTrip` | Furball.Volpe/Evaluation/CoreLib/Core.cs:13-36 | `int(string(n))` gives `n` back whenever the host parser reads back what the host formatter wrote for `n` |
| `CoreLib.Repr` | Furball.Volpe/Evaluation/CoreLib/Core.cs:38 | `repr` always succeeds with the argument's representation as a string |
| `CoreLib.StringFallsBackToRepr` | Furball.Volpe/Evaluation/CoreLib/Core.cs:26-38 | on anything but a string or a number, `string` and `repr` give the same result. It only shows that both builtins return the representation text they are given, which is the same `Value.Representation` in the source |
| `CoreLib.TypeName` | Furball.Volpe/Evaluation/CoreLib/Core.cs:60-66 | each variant's name is one of the seven type names: `number`, `string`, `void`, `function_reference`, `array`, `object`, `boolean`, in that order of variants |
| `CoreLib.TypeNameIsOneToOne` | Furball.Volpe/Evaluation/CoreLib/Core.cs:60-66 | two variants get the same name exactly when they are the same variant |
| `CoreLib.Type` | Furball.Volpe/Evaluation/CoreLib/Core.cs:57-70 | `type` never fails and gives the name of its argument's variant from that table: a number gives `number`, a string `string`, and so on |
| `CoreLib.TypeDistinguishesVariants` | Furball.Volpe/Evaluation/CoreLib/Core.cs:57-70 | two values get the same type name exactly when they are of the same variant. It follows from the table being one-to-one |
| `CoreLib.Invoke` | Furball.Volpe/Evaluation/CoreLib/Core.cs:72-84 | a first argument that is not a function reference fails with `InvalidValueType(FunctionReference, its type)`. Fewer remaining arguments than the callee's parameter count fail with `ParameterCountMismatch(name, count, given)`. Otherwise the result is the callee's invocation on exactly the remaining arguments |
| `CoreLib.InvokeForwardsArguments` | Furball.Volpe/Evaluation/CoreLib/Core.cs:78-83 | `invoke(f, args…)` with at least `f`'s parameter count of arguments is the same as calling `f` on `args` |
| `CoreLib.InvokeRejectsShortArgumentLists` | Furball.Volpe/Evaluation/CoreLib/Core.cs:78-81 | `invoke(f, args…)` with too few arguments reports `f`'s name, its parameter count and the number of arguments given |
| `CoreLib.Error` | Furball.Volpe/Evaluation/CoreLib/Core.cs:86-91 | `error` never returns a value. A string argument is thrown as `UserThrown(text)`, and any other argument fails with `InvalidValueType(String, its type)` |
| `CoreLib.Clone` | Furball.Volpe/Evaluation/CoreLib/Core.cs:93-106 | `clone` never fails. An array or object comes back with fresh storage holding equal contents, and every other value comes back equal |
| `CoreLib.HookArgumentsAsWritten` | Furball.Volpe/Evaluation/CoreLib/Core.cs:41-51 | the argument checks of `hook` as written succeed exactly on (string, function reference, function reference) and then give the name and the two references. They run in order, and the first failing one decides the error. A failed name check reports `FunctionReference` as the expected type, and a failed getter or setter check reports `FunctionReference` with the received type |
| `CoreLib.HookChecksDifferOnlyInNameError` | Furball.Volpe/Evaluation/CoreLib/Core.cs:41-51 | when the name is a string, the as-written and the corrected checks give the same result. When it is not, both report the received type, and they differ only in the expected type: `FunctionReference` as written, `String` corrected |
| `CoreLib.HookNameErrorAsWrittenIsSelfContradictory` | Furball.Volpe/Evaluation/CoreLib/Core.cs:41-43 | as written, `hook(f, f, f)` fails and reports that it expected a function reference and received one |
| `CoreLib.HookArguments` | Furball.Volpe/Evaluation/CoreLib/Core.cs:41-51 | the corrected checks run in order (name, getter, setter), and the first failing one decides the `InvalidValueType` error, naming the wanted type and the received type. On success the result is the name and the two references |
| `CoreLib.HookErrorNamesWantedType` | Furball.Volpe/Evaluation/CoreLib/Core.cs:41-51 | every error of the corrected checks is `InvalidValueType` and names a type other than the one received |
| `CoreLib.Hook` | Furball.Volpe/Evaluation/CoreLib/Core.cs:40-55 | `hook` runs the corrected checks `HookArguments` of the Findings row, so a non-string name fails with `InvalidValueType(String, its type)` where the source reports `FunctionReference` as the expected type. When the checks fail, `hook` throws their error and leaves the hook table alone. When they pass, it sets the entry `name ↦ (getter, setter)`, keeps every other entry, and returns void |
| `CoreLib.FunctionExports` | Furball.Volpe/Evaluation/CoreLib/Core.cs:12-107 | the library's export table has eight entries. Its names, their distinctness and the arities are the three `Exported…` lemmas below |
| `CoreLib.ExportedNamesAreDistinct` | Furball.Volpe/Evaluation/CoreLib/Core.cs:12-107 | no name is registered twice, so a root scope can be built from the exports |
| `CoreLib.ExportedNames` | Furball.Volpe/Evaluation/CoreLib/Core.cs:12-107 | the library registers exactly `int`, `string`, `repr`, `hook`, `type`, `invoke`, `error` and `clone` |
| `CoreLib.ExportedArities` | Furball.Volpe/Evaluation/CoreLib/Core.cs:12-107 | `hook` is registered with 3 parameters and every other core builtin with 1 |
| `CoreLib.CoreEnvironment` | Furball.Volpe/Evaluation/CoreLib/Core.cs:12-107 | a root scope built from the exports binds exactly the eight core names, each to a builtin with its registered arity, and has no variables and no hooks |
| `Scenarios.DeclarationShadowsLocally` | Volpe/Evaluation/Scope.cs:53-79 | declaring `x` in a child hides the parent's `x` in that child only: the parent and a sibling still read the parent's value |
| `Scenarios.AssignmentVersusDeclaration` | Volpe/Evaluation/Scope.cs:67-79 | assigning from a child whose parent binds `x` updates the parent and creates no binding in the child. A later declaration creates the child's own binding and leaves the parent alone |
| `Scenarios.AssignmentClimbsOneFrame` | Volpe/Evaluation/Scope.cs:69-78 | when only the grandparent binds `x`, a non-shadowing assignment creates a local binding and the grandparent keeps its value |
| `Scenarios.FunctionCheckClimbsOneFrame` | Volpe/Evaluation/Scope.cs:40-51 | a function name declared in a root is refused in its child but accepted in its grandchild |
| `Scenarios.AliasingVersusClone` | Furball.Volpe/Evaluation/CoreLib/Core.cs:93-106 | a write through one binding of an array is seen through another binding of it. A write to a clone leaves the original's items as they were |

## Findings

| source | as written | input that shows it | evidently intended | confidence | as-written member | corrected member |
|---|---|---|---|---|---|---|
| Furball.Volpe/Evaluation/CoreLib/Core.cs:41-43 | when `hook`'s first argument is not a string, the `InvalidValueType` error names `FunctionReference` as the expected type | `hook(f, f, f)` with `f` a function reference fails with "expected FunctionReference, got FunctionReference" | the error names `String`, the type the check tests, as `error` does at line 88 | high; not executed | `CoreLib.HookArgumentsAsWritten` (`CoreLib.HookNameErrorAsWrittenIsSelfContradictory`) | `CoreLib.HookArguments` (`CoreLib.HookErrorNamesWantedType`), used by `CoreLib.Hook` |

## Left out

- The rest of `Furball.Volpe.Repl/Program.cs` is not part of this model: console I/O around an endless read–eval–print loop. Only its construction of the environment from the builtins (lines 25-43) is modelled.
- Evaluation.Environment: the `Environment` class is not among the source files. Its constructor's contract (a root scope holding exactly the given builtins, no variables, an empty hook table) and `HookVariableToGetterAndSetter` as a plain map update are assumptions drawn from how `Program.cs` and `Core.cs` use it.
- Number parsing and formatting (`double.TryParse`, invariant-culture `ToString`) are parameters: `parse` of `CoreLib.Int` and `format` of `CoreLib.StringOf`. Numbers are kept as 64-bit patterns (`Double`) and never computed with. No numeric round trip is claimed beyond the conditional one in `CoreLib.NumberSurvivesStringRoundTrip`.
- `Value.Representation` is not part of this model. `CoreLib.StringOf` and `CoreLib.Repr` receive the argument's representation as the `representation` text.
- CoreLib.Invoke: the callee's own invocation (`Function.Invoke`) is the `call` parameter. Any effect it has on the environment or on scopes is not modelled, only its result.
- Builtin arity checking happens in code that is not part of this model. Each builtin requires at least its registered number of arguments, as its `values[0]`–`values[2]` accesses assume.
- `EvaluatorContext`, source positions and exception message text are left out. Errors carry only their kind and payload.
- The environment's read and write paths through hooks are not part of this model. Only the hook table update that `hook` performs is modelled, and it is a plain map update that also replaces an existing hook.
- `Array.Copy` and `Object.Copy` are not shown in the source. They are modelled as a fresh store with equal contents, a shallow copy.
- The bodies of user-defined functions are not modelled; a `Standard` function carries an opaque `ExpressionId` for its body.
- The Math builtins and the host-injected `clear` and `println` are not part of this model.
- Evaluation.Scope.WithBuiltins requires distinct builtin names, where .NET's `ToDictionary` would throw on a duplicate.
- The `ancestors` field of `Evaluation.Scope` is not in the C# class. It repeats the parent chain so that termination and the frames of lookups and assignments can be stated; it adds no behaviour.
- `type`'s fallback `InvalidOperationException` cannot happen, since `Value` has exactly seven variants and the match is exhaustive.
