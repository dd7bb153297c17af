/**
 * Small programs over the Scope and CoreLib models that show the scoping and
 * aliasing behaviour a script observes, proved from the operations' contracts alone.
 */
module Scenarios {
  import opened Wrappers
  import opened Evaluation
  import opened CoreLib

  /**
   * Declaring `x` in a child hides the parent's `x` in that child only: the parent
   * and a sibling still read the parent's value.
   */
  method DeclarationShadowsLocally(outer: Value, inner: Value)
    returns (inParent: Option<Value>, inChild: Option<Value>, inSibling: Option<Value>)
    ensures inParent == Some(outer) && inChild == Some(inner) && inSibling == Some(outer)
  {
    var a := new Scope.Root();
    a.SetVariableValue("x", outer);
    var b := new Scope.Child(a);
    var c := new Scope.Child(a);
    b.SetVariableValue("x", inner);
    assert a.variables == map["x" := outer] && b.variables == map["x" := inner] && c.variables == map[];
    inParent := a.TryGetVariableValue("x");
    inChild := b.TryGetVariableValue("x");
    inSibling := c.TryGetVariableValue("x");
  }

  /**
   * Assignment from a child whose parent binds `x` writes the parent's binding and
   * creates none in the child; a later declaration creates the child's own binding
   * and leaves the parent's alone.
   */
  method AssignmentVersusDeclaration(first: Value, written: Value, declared: Value)
    returns (parentAfterAssign: Option<Value>, childHadOwn: bool, parentAfterDeclare: Option<Value>, childAfterDeclare: Option<Value>)
    ensures parentAfterAssign == Some(written) && !childHadOwn
    ensures parentAfterDeclare == Some(written) && childAfterDeclare == Some(declared)
  {
    var a := new Scope.Root();
    a.SetVariableValue("x", first);
    var b := new Scope.Child(a);
    b.SetVariableValue("x", written, false);
    parentAfterAssign := a.TryGetVariableValue("x");
    childHadOwn := b.HasVariable("x");
    b.SetVariableValue("x", declared);
    parentAfterDeclare := a.TryGetVariableValue("x");
    childAfterDeclare := b.TryGetVariableValue("x");
  }

  /**
   * Assignment looks only one frame up: when only the grandparent binds `x`, the
   * write lands in the current frame and the grandparent keeps its value.
   */
  method AssignmentClimbsOneFrame(first: Value, written: Value)
    returns (inGrandparent: Option<Value>, inChild: Option<Value>)
    ensures inGrandparent == Some(first) && inChild == Some(written)
  {
    var g := new Scope.Root();
    g.SetVariableValue("x", first);
    var p := new Scope.Child(g);
    var c := new Scope.Child(p);
    c.SetVariableValue("x", written, false);
    inGrandparent := g.TryGetVariableValue("x");
    inChild := c.TryGetVariableValue("x");
  }

  /**
   * Function declaration looks only one frame up: a name declared in the grandparent
   * is refused in its child but accepted in its grandchild.
   */
  method FunctionCheckClimbsOneFrame(body: ExpressionId)
    returns (inRoot: bool, inChild: bool, inGrandchild: bool)
    ensures inRoot && !inChild && inGrandchild
  {
    var g := new Scope.Root();
    var f := Standard([], body, g);
    inRoot := g.TrySetFunction("f", f);
    var p := new Scope.Child(g);
    inChild := p.TrySetFunction("f", f);
    var c := new Scope.Child(p);
    inGrandchild := c.TrySetFunction("f", f);
  }

  /**
   * Two bindings of one array value see each other's writes; a clone does not: a
   * write to the clone leaves the original's items as they were.
   */
  method AliasingVersusClone(store: ArrayStore, x: Value) returns (throughAlias: seq<Value>, inClone: seq<Value>)
    modifies store
    ensures throughAlias == old(store.items) + [x]
    ensures inClone == old(store.items) + [x, x]
    ensures store.items == old(store.items) + [x]
  {
    var a := Array(store);
    var alias := a;
    alias.elements.items := alias.elements.items + [x];
    throughAlias := a.elements.items;
    var cloned := Clone([a]);
    var copy := cloned.value;
    copy.elements.items := copy.elements.items + [x];
    inClone := copy.elements.items;
  }
}
