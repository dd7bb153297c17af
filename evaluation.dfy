/**
 * The runtime values of the Volpe scripting language, its functions, the lexical
 * `Scope` frame and the `Environment` that the core builtins act on.
 *
 * Value, Function and Scope refer to each other (a user-defined function captures
 * the Scope it was declared in, and a Scope maps names to Functions), so they share
 * one module.
 */
module Evaluation {
  import opened Wrappers

  /** A 64-bit IEEE double, kept as its bit pattern: the model never computes with numbers. */
  datatype Double = Double(bits: bv64)

  /** Identifies the body expression of a user-defined function; expression trees are not modelled. */
  type ExpressionId = nat

  /**
   * A runtime value. Numbers, strings, booleans, void and function references are
   * values; arrays and objects are references to mutable storage, so two values can
   * alias the same storage.
   */
  datatype Value =
    | Number(number: Double)
    | String(text: string)
    | Boolean(flag: bool)
    | Void
    | Array(elements: ArrayStore)
    | Object(members: ObjectStore)
    | FunctionReference(callee: Function, name: string)

  /** A `Value` known to be a function reference, as the hook table stores them. */
  type FunctionRef = v: Value | v.FunctionReference? witness FunctionReference(Builtin(0, ""), "")

  /** The backing storage of an Array value. */
  class ArrayStore {
    var items: seq<Value>

    constructor (items: seq<Value>)
      ensures this.items == items
    {
      this.items := items;
    }

    /** A fresh store with the same items: the copy behind `clone` on arrays. */
    method Copy() returns (c: ArrayStore)
      ensures fresh(c) && c.items == items
    {
      c := new ArrayStore(items);
    }
  }

  /** The backing storage of an Object value. */
  class ObjectStore {
    var fields: map<string, Value>

    constructor (fields: map<string, Value>)
      ensures this.fields == fields
    {
      this.fields := fields;
    }

    /** A fresh store with the same fields: the copy behind `clone` on objects. */
    method Copy() returns (c: ObjectStore)
      ensures fresh(c) && c.fields == fields
    {
      c := new ObjectStore(fields);
    }
  }

  /**
   * A callable. A builtin has a fixed parameter count and a native callback, which the
   * model names by the name it was registered under. A user-defined (standard)
   * function has ordered parameter names, a body, and the Scope it closes over.
   */
  datatype Function =
    | Builtin(parameterCount: nat, native: string)
    | Standard(parameterNames: seq<string>, body: ExpressionId, closure: Scope)
  {
    /** The arity that calls are checked against. */
    function ParameterCount(): nat {
      if Builtin? then parameterCount else |parameterNames|
    }
  }

  /** One entry of a builtin registration list: a name, an arity and (implicitly) a callback. */
  datatype BuiltinFunction = BuiltinFunction(name: string, parameterCount: nat)

  /** No two entries of a registration list share a name. */
  predicate DistinctNames(builtins: seq<BuiltinFunction>) {
    forall i, j :: 0 <= i < j < |builtins| ==> builtins[i].name != builtins[j].name
  }

  /** The names a registration list declares. */
  function Names(builtins: seq<BuiltinFunction>): set<string> {
    set b | b in builtins :: b.name
  }

  /**
   * The function table a builtins scope starts with: every listed name bound to a
   * builtin function with that entry's arity and callback, and nothing else.
   */
  function BuiltinTable(builtins: seq<BuiltinFunction>): (table: map<string, Function>)
    requires DistinctNames(builtins)
    ensures table.Keys == Names(builtins)
    ensures forall b :: b in builtins ==> table[b.name] == Builtin(b.parameterCount, b.name)
  {
    if builtins == [] then map[]
    else
      var b, rest := builtins[0], builtins[1..];
      DistinctTail(builtins);
      NamesOfCons(builtins);
      BuiltinTable(rest)[b.name := Builtin(b.parameterCount, b.name)]
  }

  /** Dropping the first entry keeps the names distinct, and no later entry reuses its name. */
  lemma DistinctTail(builtins: seq<BuiltinFunction>)
    requires DistinctNames(builtins) && builtins != []
    ensures DistinctNames(builtins[1..])
    ensures forall c :: c in builtins[1..] ==> c.name != builtins[0].name
  {
    var rest := builtins[1..];
    forall i, j | 0 <= i < j < |rest| ensures rest[i].name != rest[j].name {
      assert rest[i] == builtins[i + 1] && rest[j] == builtins[j + 1];
    }
    forall c | c in rest ensures c.name != builtins[0].name {
      var i :| 0 <= i < |rest| && rest[i] == c;
      assert c == builtins[i + 1];
    }
  }

  lemma NamesOfCons(builtins: seq<BuiltinFunction>)
    requires builtins != []
    ensures Names(builtins) == {builtins[0].name} + Names(builtins[1..])
  {
    assert forall c :: c in builtins <==> c == builtins[0] || c in builtins[1..];
  }

  /**
   * A lexical frame: local variables, local functions and an optional parent frame
   * that lookups fall back to. The parent is fixed at construction.
   */
  class Scope {
    const parent: Scope?
    /**
     * The frames above this one, nearest first. It is fixed at construction, like
     * `parent`, and only records the chain that `parent` already determines.
     */
    const ancestors: seq<Scope>
    var variables: map<string, Value>
    var functions: map<string, Function>

    /** `ancestors` is the parent chain; since it shrinks by one per step, the chain is finite. */
    ghost predicate Valid()
      decreases |ancestors|
    {
      if parent == null then ancestors == []
      else ancestors == [parent] + parent.ancestors && parent.Valid()
    }

    /** The frames a lookup from here visits, nearest first. */
    ghost function Chain(): seq<Scope> {
      [this] + ancestors
    }

    /** The objects a lookup reads and an assignment may write: this frame and its ancestors. */
    ghost function Repr(): set<Scope> {
      {this} + set s | s in ancestors
    }

    /** Every ancestor is itself valid and has a shorter chain, so no frame is its own ancestor. */
    lemma {:induction false} AncestorsShorter()
      requires Valid()
      ensures forall s :: s in ancestors ==> s.Valid() && |s.ancestors| < |ancestors|
      ensures this !in ancestors
      decreases |ancestors|
    {
      if parent != null {
        parent.AncestorsShorter();
      }
    }

    /** A root frame whose functions are the given builtins; it has no variables and no parent. */
    constructor WithBuiltins(builtins: seq<BuiltinFunction>)
      requires DistinctNames(builtins)
      ensures Valid() && parent == null && variables == map[]
      ensures functions.Keys == Names(builtins)
      ensures forall b :: b in builtins ==> functions[b.name] == Builtin(b.parameterCount, b.name)
    {
      parent := null;
      ancestors := [];
      variables := map[];
      functions := BuiltinTable(builtins);
    }

    /** An empty root frame. */
    constructor Root()
      ensures Valid() && parent == null && variables == map[] && functions == map[]
    {
      parent := null;
      ancestors := [];
      variables := map[];
      functions := map[];
    }

    /** An empty frame below `parent` (which may be null, giving a root). */
    constructor Child(parent: Scope?)
      requires parent != null ==> parent.Valid()
      ensures Valid() && this.parent == parent && variables == map[] && functions == map[]
      ensures parent != null ==> Chain() == [this] + parent.Chain()
    {
      this.parent := parent;
      ancestors := if parent == null then [] else [parent] + parent.ancestors;
      variables := map[];
      functions := map[];
    }

    /** Local bindings only: neither test looks at the parent. */
    predicate HasVariable(name: string)
      reads this
    {
      name in variables
    }

    predicate HasFunction(name: string)
      reads this
    {
      name in functions
    }

    /** Looks `name` up among the variables: this frame first, then the parent's lookup. */
    function TryGetVariableValue(name: string): (r: Option<Value>)
      requires Valid()
      reads Repr()
      decreases |ancestors|
      ensures HasVariable(name) ==> r == Some(variables[name])
      ensures parent == null ==> (r.Some? <==> HasVariable(name))
    {
      if name in variables then Some(variables[name])
      else if parent == null then None
      else parent.TryGetVariableValue(name)
    }

    /** Looks `name` up among the functions: this frame first, then the parent's lookup. */
    function TryGetFunctionReference(name: string): (r: Option<Function>)
      requires Valid()
      reads Repr()
      decreases |ancestors|
      ensures HasFunction(name) ==> r == Some(functions[name])
      ensures parent == null ==> (r.Some? <==> HasFunction(name))
    {
      if name in functions then Some(functions[name])
      else if parent == null then None
      else parent.TryGetFunctionReference(name)
    }

    /**
     * A variable lookup succeeds exactly when some frame on the chain binds the name,
     * and it yields the value bound in the nearest such frame.
     */
    lemma {:induction false} VariableLookupFindsNearestBinding(name: string)
      requires Valid()
      decreases |ancestors|
      ensures TryGetVariableValue(name).Some? <==> exists s :: s in Chain() && name in s.variables
      ensures TryGetVariableValue(name).Some? ==>
        exists k :: (0 <= k < |Chain()| && name in Chain()[k].variables &&
          TryGetVariableValue(name).value == Chain()[k].variables[name] &&
          forall j :: 0 <= j < k ==> name !in Chain()[j].variables)
    {
      assert Chain()[0] == this;
      if name !in variables && parent != null {
        assert Chain() == [this] + parent.Chain();
        parent.VariableLookupFindsNearestBinding(name);
        var r := parent.TryGetVariableValue(name);
        if r.Some? {
          var k :| 0 <= k < |parent.Chain()| && name in parent.Chain()[k].variables &&
            r.value == parent.Chain()[k].variables[name] &&
            forall j :: 0 <= j < k ==> name !in parent.Chain()[j].variables;
          assert forall j :: 0 < j <= k + 1 ==> Chain()[j] == parent.Chain()[j - 1];
          assert name in Chain()[k + 1].variables && r.value == Chain()[k + 1].variables[name];
        }
      }
    }

    /** The same nearest-binding meaning for function lookups. */
    lemma {:induction false} FunctionLookupFindsNearestBinding(name: string)
      requires Valid()
      decreases |ancestors|
      ensures TryGetFunctionReference(name).Some? <==> exists s :: s in Chain() && name in s.functions
      ensures TryGetFunctionReference(name).Some? ==>
        exists k :: (0 <= k < |Chain()| && name in Chain()[k].functions &&
          TryGetFunctionReference(name).value == Chain()[k].functions[name] &&
          forall j :: 0 <= j < k ==> name !in Chain()[j].functions)
    {
      assert Chain()[0] == this;
      if name !in functions && parent != null {
        assert Chain() == [this] + parent.Chain();
        parent.FunctionLookupFindsNearestBinding(name);
        var r := parent.TryGetFunctionReference(name);
        if r.Some? {
          var k :| 0 <= k < |parent.Chain()| && name in parent.Chain()[k].functions &&
            r.value == parent.Chain()[k].functions[name] &&
            forall j :: 0 <= j < k ==> name !in parent.Chain()[j].functions;
          assert forall j :: 0 < j <= k + 1 ==> Chain()[j] == parent.Chain()[j - 1];
          assert name in Chain()[k + 1].functions && r.value == Chain()[k + 1].functions[name];
        }
      }
    }

    /** The C# call `SetVariableValue(name, _, shadow)` hands the write to the parent frame. */
    predicate ForwardsToParent(name: string, shadowParentVariables: bool)
      reads this, parent
    {
      !shadowParentVariables && parent != null && parent.HasVariable(name)
    }

    /**
     * Declares a user-defined function in this frame. It is refused when this frame or
     * the immediate parent frame already has a local function of that name; a name
     * declared only further up the chain is not checked.
     */
    method TrySetFunction(name: string, f: Function) returns (added: bool)
      requires Valid() && f.Standard?
      modifies this
      ensures added <==> name !in old(functions) && !(parent != null && name in parent.functions)
      ensures functions == if added then old(functions)[name := f] else old(functions)
      ensures variables == old(variables)
      ensures added ==> TryGetFunctionReference(name) == Some(f)
    {
      if parent != null && parent.HasFunction(name) {
        return false;
      }
      if HasFunction(name) {
        return false;
      }
      functions := functions[name := f];
      added := true;
    }

    /**
     * Writes a variable. With shadowing (the default) the binding goes into this frame.
     * Without shadowing the write is handed to the parent when the parent frame binds
     * the name locally; the parent then shadows, so it writes its own binding and the
     * write climbs no further. Otherwise the binding goes into this frame.
     */
    method SetVariableValue(name: string, value: Value, shadowParentVariables: bool := true)
      requires Valid()
      modifies Repr()
      decreases |ancestors|
      ensures old(ForwardsToParent(name, shadowParentVariables)) ==>
        parent.variables == old(parent.variables)[name := value] && variables == old(variables)
      ensures !old(ForwardsToParent(name, shadowParentVariables)) ==>
        variables == old(variables)[name := value]
      ensures forall s :: s in ancestors && s != parent ==> s.variables == old(s.variables)
      ensures !old(ForwardsToParent(name, shadowParentVariables)) && parent != null ==>
        parent.variables == old(parent.variables)
      ensures functions == old(functions)
      ensures forall s :: s in ancestors ==> s.functions == old(s.functions)
      ensures !old(ForwardsToParent(name, shadowParentVariables)) ==> TryGetVariableValue(name) == Some(value)
      ensures old(ForwardsToParent(name, shadowParentVariables)) ==> parent.TryGetVariableValue(name) == Some(value)
    {
      AncestorsShorter();
      if !shadowParentVariables && parent != null && parent.HasVariable(name) {
        assert ancestors == [parent] + parent.ancestors;
        parent.SetVariableValue(name, value);
        return;
      }
      // Overwriting an existing key and adding a new one are the same map update.
      variables := variables[name := value];
    }
  }

  /**
   * The evaluation-wide state the builtins act on: a root scope and the hook table,
   * which maps a variable name to its getter and setter function references.
   */
  class Environment {
    const scope: Scope
    var hooks: map<string, (FunctionRef, FunctionRef)>

    /** An environment whose root scope holds the given builtins and no variables, with no hooks. */
    constructor (builtins: seq<BuiltinFunction>)
      requires DistinctNames(builtins)
      ensures fresh(scope) && scope.Valid() && scope.parent == null && scope.variables == map[]
      ensures scope.functions.Keys == Names(builtins)
      ensures forall b :: b in builtins ==> scope.functions[b.name] == Builtin(b.parameterCount, b.name)
      ensures hooks == map[]
    {
      scope := new Scope.WithBuiltins(builtins);
      hooks := map[];
    }

    /** Installs (or replaces) the getter and setter for `name`; other hooks stay as they were. */
    method HookVariableToGetterAndSetter(name: string, accessors: (FunctionRef, FunctionRef))
      modifies this
      ensures hooks == old(hooks)[name := accessors]
    {
      hooks := hooks[name := accessors];
    }
  }
}
