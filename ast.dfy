/**
 * The AST nodes of ast.c. A node is created with a fixed number of child slots
 * and a counter equal to that number; `add_child` writes into the slot just below
 * the counter and decrements it, so the typed constructors, which add their
 * children first to last, fill the slots last to first. The pure functions `AddOne`
 * and `AddAll` state that rule on sequences; the class `AstNode` is the node
 * itself, with the slot array updated in place.
 */
module Ast {
  import opened Wrappers
  import opened CLib

  /** The node kinds declared by ast.c, in declaration order. */
  datatype NodeType =
    | Program | PrintStatement | Assignment | IfStatement | WhileLoop | ForLoop
    | RepeatUntil | SelectCase | Case | Gosub | Return | OnErrorGoto | Data | Read
    | Restore | Dim | DefFn | DefProc | FunctionCall | Poke | Peek | Allocate
    | Free | End | Stop

  // ------------------------------------------------------------------ the slot rule

  /** One `add_child` on slots `slots` with counter `count`. */
  function AddOne<T>(slots: seq<T>, count: nat, child: T): (r: (seq<T>, nat))
    requires count <= |slots|
    ensures |r.0| == |slots| && r.1 <= count
  {
    if count > 0 then (slots[count - 1 := child], count - 1) else (slots, count)
  }

  /** `add_child` called with each of `xs` in turn, first to last. */
  function AddAll<T>(slots: seq<T>, count: nat, xs: seq<T>): (r: (seq<T>, nat))
    requires count <= |slots|
    ensures |r.0| == |slots| && r.1 <= count
    decreases |xs|
  {
    if xs == [] then (slots, count)
    else
      var before := AddAll(slots, count, xs[..|xs| - 1]);
      AddOne(before.0, before.1, xs[|xs| - 1])
  }

  /** `xs` last to first. */
  function Reverse<T>(xs: seq<T>): (r: seq<T>)
    ensures |r| == |xs|
    decreases |xs|
  {
    if xs == [] then [] else [xs[|xs| - 1]] + Reverse(xs[..|xs| - 1])
  }

  lemma {:induction false} ReverseAt<T>(xs: seq<T>, k: nat)
    requires k < |xs|
    ensures Reverse(xs)[k] == xs[|xs| - 1 - k]
    decreases |xs|
  {
    if k > 0 {
      ReverseAt(xs[..|xs| - 1], k - 1);
    }
  }

  /**
   * The k-th of the adds (counting from 0) lands in slot `count - 1 - k`, the
   * counter drops by one per add, and the slots below the last one written and at
   * or above the first one are untouched.
   */
  lemma {:induction false} AddAllBackToFront<T>(slots: seq<T>, count: nat, xs: seq<T>)
    requires |xs| <= count <= |slots|
    ensures AddAll(slots, count, xs).1 == count - |xs|
    ensures forall k :: 0 <= k < |xs| ==> AddAll(slots, count, xs).0[count - 1 - k] == xs[k]
    ensures forall j :: 0 <= j < |slots| && !(count - |xs| <= j < count) ==>
              AddAll(slots, count, xs).0[j] == slots[j]
    decreases |xs|
  {
    if xs != [] {
      var init := xs[..|xs| - 1];
      AddAllBackToFront(slots, count, init);
      assert forall k :: 0 <= k < |init| ==> init[k] == xs[k];
    }
  }

  /** Once the counter is 0, further adds change nothing. */
  lemma {:induction false} AddAllWhenFull<T>(slots: seq<T>, xs: seq<T>)
    ensures AddAll(slots, 0, xs) == (slots, 0)
    decreases |xs|
  {
    if xs != [] {
      AddAllWhenFull(slots, xs[..|xs| - 1]);
    }
  }

  /** On a node given exactly as many adds as slots, slot `k` holds the child added `k`-th from last. */
  lemma FilledSlot<T>(slots: seq<T>, xs: seq<T>, k: nat)
    requires |slots| == |xs| && k < |xs|
    ensures AddAll(slots, |xs|, xs).0[k] == Reverse(xs)[k]
  {
    var n := |xs|;
    AddAllBackToFront(slots, n, xs);
    assert AddAll(slots, n, xs).0[n - 1 - (n - 1 - k)] == xs[n - 1 - k];
    ReverseAt(xs, k);
  }

  /** A node given exactly as many adds as slots ends with its children reversed and its counter 0. */
  lemma FilledNodeIsReversed<T>(slots: seq<T>, xs: seq<T>)
    requires |slots| == |xs|
    ensures AddAll(slots, |xs|, xs) == (Reverse(xs), 0)
  {
    var r := AddAll(slots, |xs|, xs);
    assert r.1 == 0 by {
      AddAllBackToFront(slots, |xs|, xs);
    }
    forall k | 0 <= k < |xs|
      ensures r.0[k] == Reverse(xs)[k]
    {
      FilledSlot(slots, xs, k);
    }
    assert r.0 == Reverse(xs);
  }

  /**
   * The value `create_restore_node` stores: the decimal text of a non-zero line
   * number, NULL for 0.
   */
  function RestoreLabel(lineNumber: int): (text: Option<string>)
    ensures text.None? <==> lineNumber == 0
    ensures text.Some? ==> Atoi(text.value) == lineNumber
  {
    AtoiOfIntToDecimal(lineNumber);
    if lineNumber != 0 then Some(IntToDecimal(lineNumber)) else None
  }

  function Nulls(n: nat): (r: seq<AstNode?>)
    ensures |r| == n && forall k :: 0 <= k < n ==> r[k] == null
  {
    seq(n, _ => null)
  }

  // ------------------------------------------------------------------ the node

  /** `ASTNode`: a kind, an optional text, a slot array and the slot counter. */
  class AstNode {
    const nodeType: NodeType
    const value: Option<string>
    const children: array<AstNode?>
    var childrenCount: nat

    ghost predicate Valid()
      reads this
    {
      childrenCount <= children.Length
    }

    /**
     * `create_ast_node`: `childrenCount` empty slots (none, for 0) and the
     * counter set to that number. Slots not yet written are `null`.
     */
    constructor (nodeType: NodeType, value: Option<string>, childrenCount: nat)
      ensures Valid() && fresh(children)
      ensures this.nodeType == nodeType && this.value == value
      ensures this.childrenCount == childrenCount && children[..] == Nulls(childrenCount)
    {
      this.nodeType := nodeType;
      this.value := value;
      this.childrenCount := childrenCount;
      children := new AstNode?[childrenCount](_ => null);
    }

    /** `add_child`: fill the slot below the counter and decrement it; no effect at 0. */
    method AddChild(child: AstNode?)
      requires Valid()
      modifies this, children
      ensures Valid()
      ensures (children[..], childrenCount) == AddOne(old(children[..]), old(childrenCount), child)
    {
      if childrenCount > 0 {
        children[childrenCount - 1] := child;
        childrenCount := childrenCount - 1;
      }
    }
  }

  // ------------------------------------------------------------------ typed constructors

  /** `create_program_node`: the statements copied in order; the counter keeps their number. */
  method CreateProgramNode(statements: seq<AstNode?>) returns (node: AstNode)
    ensures fresh(node) && fresh(node.children) && node.Valid()
    ensures node.nodeType == Program && node.value == None
    ensures node.children[..] == statements && node.childrenCount == |statements|
  {
    node := new AstNode(Program, None, |statements|);
    for i := 0 to |statements|
      invariant node.children[..i] == statements[..i]
      invariant node.childrenCount == |statements|
    {
      node.children[i] := statements[i];
    }
  }

  /** Adds each of `xs` to a node, first to last, as the constructors' `for` loops do. */
  method AddEach(node: AstNode, xs: seq<AstNode?>)
    requires node.Valid()
    modifies node, node.children
    ensures node.Valid()
    ensures (node.children[..], node.childrenCount) ==
              AddAll(old(node.children[..]), old(node.childrenCount), xs)
  {
    for i := 0 to |xs|
      invariant node.Valid()
      invariant (node.children[..], node.childrenCount) ==
                  AddAll(old(node.children[..]), old(node.childrenCount), xs[..i])
    {
      assert xs[..i + 1][..i] == xs[..i];
      node.AddChild(xs[i]);
    }
    assert xs[..|xs|] == xs;
  }

  /** A fresh node of kind `t` filled by adds of `xs`, first to last. */
  method FilledNode(t: NodeType, value: Option<string>, xs: seq<AstNode?>) returns (node: AstNode)
    ensures fresh(node) && fresh(node.children) && node.Valid()
    ensures node.nodeType == t && node.value == value
    ensures node.children[..] == Reverse(xs) && node.childrenCount == 0
  {
    node := new AstNode(t, value, |xs|);
    AddEach(node, xs);
    FilledNodeIsReversed(Nulls(|xs|), xs);
  }

  /** `create_print_node`: one slot, holding the expression. */
  method CreatePrintNode(expression: AstNode?) returns (node: AstNode)
    ensures fresh(node) && fresh(node.children) && node.Valid()
    ensures node.nodeType == PrintStatement && node.value == None
    ensures node.children[..] == [expression] && node.childrenCount == 0
  {
    node := new AstNode(PrintStatement, None, 1);
    node.AddChild(expression);
  }

  /** `create_assignment_node`: the variable ends in slot 1 and the expression in slot 0. */
  method CreateAssignmentNode(variable: AstNode?, expression: AstNode?) returns (node: AstNode)
    ensures fresh(node) && fresh(node.children) && node.Valid()
    ensures node.nodeType == Assignment && node.value == None
    ensures node.children[..] == [expression, variable] && node.childrenCount == 0
  {
    node := new AstNode(Assignment, None, 2);
    node.AddChild(variable);
    node.AddChild(expression);
  }

  /**
   * `create_if_node`: three slots when there is an else block, two otherwise;
   * the condition ends in the last slot.
   */
  method CreateIfNode(condition: AstNode?, thenBlock: AstNode?, elseBlock: AstNode?)
    returns (node: AstNode)
    ensures fresh(node) && fresh(node.children) && node.Valid()
    ensures node.nodeType == IfStatement && node.value == None
    ensures node.children.Length == (if elseBlock != null then 3 else 2)
    ensures node.children[..] ==
              if elseBlock != null then [elseBlock, thenBlock, condition] else [thenBlock, condition]
    ensures node.childrenCount == 0
  {
    var count := if elseBlock != null then 3 else 2;
    node := new AstNode(IfStatement, None, count);
    node.AddChild(condition);
    node.AddChild(thenBlock);
    if elseBlock != null {
      node.AddChild(elseBlock);
    }
  }

  /** `create_while_node`: the block in slot 0, the condition in slot 1. */
  method CreateWhileNode(condition: AstNode?, block: AstNode?) returns (node: AstNode)
    ensures fresh(node) && fresh(node.children) && node.Valid()
    ensures node.nodeType == WhileLoop && node.value == None
    ensures node.children[..] == [block, condition] && node.childrenCount == 0
  {
    node := new AstNode(WhileLoop, None, 2);
    node.AddChild(condition);
    node.AddChild(block);
  }

  /** `create_for_node`: exactly four slots, filled block, step, condition, init from slot 0 up. */
  method CreateForNode(init: AstNode?, condition: AstNode?, step: AstNode?, block: AstNode?)
    returns (node: AstNode)
    ensures fresh(node) && fresh(node.children) && node.Valid()
    ensures node.nodeType == ForLoop && node.value == None && node.children.Length == 4
    ensures node.children[..] == [block, step, condition, init] && node.childrenCount == 0
  {
    node := new AstNode(ForLoop, None, 4);
    node.AddChild(init);
    node.AddChild(condition);
    node.AddChild(step);
    node.AddChild(block);
  }

  /** `create_repeat_until_node`: the condition in slot 0, the block in slot 1. */
  method CreateRepeatUntilNode(block: AstNode?, condition: AstNode?) returns (node: AstNode)
    ensures fresh(node) && fresh(node.children) && node.Valid()
    ensures node.nodeType == RepeatUntil && node.value == None
    ensures node.children[..] == [condition, block] && node.childrenCount == 0
  {
    node := new AstNode(RepeatUntil, None, 2);
    node.AddChild(block);
    node.AddChild(condition);
  }

  /**
   * `create_select_case_node`: `|cases| + 1` slots; the guard expression ends in
   * the last slot and the cases, reversed, below it.
   */
  method CreateSelectCaseNode(expression: AstNode?, cases: seq<AstNode?>) returns (node: AstNode)
    ensures fresh(node) && fresh(node.children) && node.Valid()
    ensures node.nodeType == SelectCase && node.value == None
    ensures node.children.Length == |cases| + 1
    ensures node.children[..] == Reverse([expression] + cases) && node.childrenCount == 0
  {
    node := new AstNode(SelectCase, None, |cases| + 1);
    node.AddChild(expression);
    AddEach(node, cases);
    assert AddAll(Nulls(|cases| + 1), |cases| + 1, [expression]) == AddOne(Nulls(|cases| + 1), |cases| + 1, expression);
    AddAllFromPrefix(Nulls(|cases| + 1), |cases| + 1, [expression], cases);
    FilledNodeIsReversed(Nulls(|cases| + 1), [expression] + cases);
  }

  /** Adding `xs` and then `ys` is adding `xs + ys`. */
  lemma {:induction false} AddAllFromPrefix<T>(slots: seq<T>, count: nat, xs: seq<T>, ys: seq<T>)
    requires count <= |slots|
    ensures var mid := AddAll(slots, count, xs);
            AddAll(mid.0, mid.1, ys) == AddAll(slots, count, xs + ys)
    decreases |ys|
  {
    if ys != [] {
      AddAllFromPrefix(slots, count, xs, ys[..|ys| - 1]);
      assert (xs + ys)[..|xs + ys| - 1] == xs + ys[..|ys| - 1];
    } else {
      assert xs + ys == xs;
    }
  }

  /** `create_case_node`: the block in slot 0, the value in slot 1. */
  method CreateCaseNode(value: AstNode?, block: AstNode?) returns (node: AstNode)
    ensures fresh(node) && fresh(node.children) && node.Valid()
    ensures node.nodeType == Case && node.value == None
    ensures node.children[..] == [block, value] && node.childrenCount == 0
  {
    node := new AstNode(Case, None, 2);
    node.AddChild(value);
    node.AddChild(block);
  }

  /** `create_gosub_node`: no children; the label is the node's value. */
  method CreateGosubNode(target: Option<string>) returns (node: AstNode)
    ensures fresh(node) && node.Valid()
    ensures node.nodeType == Gosub && node.value == target
    ensures node.children.Length == 0 && node.childrenCount == 0
  {
    node := new AstNode(Gosub, target, 0);
  }

  /** `create_return_node`: no children, no value. */
  method CreateReturnNode() returns (node: AstNode)
    ensures fresh(node) && node.Valid()
    ensures node.nodeType == Return && node.value == None
    ensures node.children.Length == 0 && node.childrenCount == 0
  {
    node := new AstNode(Return, None, 0);
  }

  /** `create_on_error_goto_node`: no children; the label is the node's value. */
  method CreateOnErrorGotoNode(target: Option<string>) returns (node: AstNode)
    ensures fresh(node) && node.Valid()
    ensures node.nodeType == OnErrorGoto && node.value == target
    ensures node.children.Length == 0 && node.childrenCount == 0
  {
    node := new AstNode(OnErrorGoto, target, 0);
  }

  /** `create_data_node`: one slot per value, the values ending reversed. */
  method CreateDataNode(values: seq<AstNode?>) returns (node: AstNode)
    ensures fresh(node) && fresh(node.children) && node.Valid()
    ensures node.nodeType == Data && node.value == None
    ensures node.children[..] == Reverse(values) && node.childrenCount == 0
  {
    node := FilledNode(Data, None, values);
  }

  /** `create_read_node`: one slot, holding the variable. */
  method CreateReadNode(variable: AstNode?) returns (node: AstNode)
    ensures fresh(node) && fresh(node.children) && node.Valid()
    ensures node.nodeType == Read && node.value == None
    ensures node.children[..] == [variable] && node.childrenCount == 0
  {
    node := new AstNode(Read, None, 1);
    node.AddChild(variable);
  }

  /** `create_restore_node`: no children; the decimal text of a non-zero line number as value. */
  method CreateRestoreNode(lineNumber: int) returns (node: AstNode)
    ensures fresh(node) && node.Valid()
    ensures node.nodeType == Restore && node.value == RestoreLabel(lineNumber)
    ensures node.children.Length == 0 && node.childrenCount == 0
  {
    node := new AstNode(Restore, RestoreLabel(lineNumber), 0);
  }

  /**
   * `create_dim_node`: `|dimensions| + 1` slots; the variable ends in the last
   * slot and the dimensions, reversed, below it.
   */
  method CreateDimNode(variable: AstNode?, dimensions: seq<AstNode?>) returns (node: AstNode)
    ensures fresh(node) && fresh(node.children) && node.Valid()
    ensures node.nodeType == Dim && node.value == None
    ensures node.children.Length == |dimensions| + 1
    ensures node.children[..] == Reverse([variable] + dimensions) && node.childrenCount == 0
  {
    node := new AstNode(Dim, None, |dimensions| + 1);
    node.AddChild(variable);
    AddEach(node, dimensions);
    assert AddAll(Nulls(|dimensions| + 1), |dimensions| + 1, [variable]) == AddOne(Nulls(|dimensions| + 1), |dimensions| + 1, variable);
    AddAllFromPrefix(Nulls(|dimensions| + 1), |dimensions| + 1, [variable], dimensions);
    FilledNodeIsReversed(Nulls(|dimensions| + 1), [variable] + dimensions);
  }

  /** `create_def_fn_node`: the name as value; the body in slot 0, the parameters in slot 1. */
  method CreateDefFnNode(name: Option<string>, parameters: AstNode?, body: AstNode?) returns (node: AstNode)
    ensures fresh(node) && fresh(node.children) && node.Valid()
    ensures node.nodeType == DefFn && node.value == name
    ensures node.children[..] == [body, parameters] && node.childrenCount == 0
  {
    node := new AstNode(DefFn, name, 2);
    node.AddChild(parameters);
    node.AddChild(body);
  }

  /** `create_def_proc_node`: the name as value; the body in slot 0, the parameters in slot 1. */
  method CreateDefProcNode(name: Option<string>, parameters: AstNode?, body: AstNode?) returns (node: AstNode)
    ensures fresh(node) && fresh(node.children) && node.Valid()
    ensures node.nodeType == DefProc && node.value == name
    ensures node.children[..] == [body, parameters] && node.childrenCount == 0
  {
    node := new AstNode(DefProc, name, 2);
    node.AddChild(parameters);
    node.AddChild(body);
  }

  /** `create_function_call_node`: the name as value; one slot per argument, the arguments reversed. */
  method CreateFunctionCallNode(name: Option<string>, arguments: seq<AstNode?>) returns (node: AstNode)
    ensures fresh(node) && fresh(node.children) && node.Valid()
    ensures node.nodeType == FunctionCall && node.value == name
    ensures node.children[..] == Reverse(arguments) && node.childrenCount == 0
  {
    node := FilledNode(FunctionCall, name, arguments);
  }

  /** `create_poke_node`: the value in slot 0, the address in slot 1. */
  method CreatePokeNode(address: AstNode?, value: AstNode?) returns (node: AstNode)
    ensures fresh(node) && fresh(node.children) && node.Valid()
    ensures node.nodeType == Poke && node.value == None
    ensures node.children[..] == [value, address] && node.childrenCount == 0
  {
    node := new AstNode(Poke, None, 2);
    node.AddChild(address);
    node.AddChild(value);
  }

  /** `create_peek_node`: one slot, holding the address. */
  method CreatePeekNode(address: AstNode?) returns (node: AstNode)
    ensures fresh(node) && fresh(node.children) && node.Valid()
    ensures node.nodeType == Peek && node.value == None
    ensures node.children[..] == [address] && node.childrenCount == 0
  {
    node := new AstNode(Peek, None, 1);
    node.AddChild(address);
  }

  /** `create_allocate_node`: the size in slot 0, the variable in slot 1. */
  method CreateAllocateNode(variable: AstNode?, size: AstNode?) returns (node: AstNode)
    ensures fresh(node) && fresh(node.children) && node.Valid()
    ensures node.nodeType == Allocate && node.value == None
    ensures node.children[..] == [size, variable] && node.childrenCount == 0
  {
    node := new AstNode(Allocate, None, 2);
    node.AddChild(variable);
    node.AddChild(size);
  }

  /** `create_free_node`: one slot, holding the variable. */
  method CreateFreeNode(variable: AstNode?) returns (node: AstNode)
    ensures fresh(node) && fresh(node.children) && node.Valid()
    ensures node.nodeType == Free && node.value == None
    ensures node.children[..] == [variable] && node.childrenCount == 0
  {
    node := new AstNode(Free, None, 1);
    node.AddChild(variable);
  }

  /** `create_end_node`: no children, no value. */
  method CreateEndNode() returns (node: AstNode)
    ensures fresh(node) && node.Valid()
    ensures node.nodeType == End && node.value == None
    ensures node.children.Length == 0 && node.childrenCount == 0
  {
    node := new AstNode(End, None, 0);
  }

  /** `create_stop_node`: no children, no value. */
  method CreateStopNode() returns (node: AstNode)
    ensures fresh(node) && node.Valid()
    ensures node.nodeType == Stop && node.value == None
    ensures node.children.Length == 0 && node.childrenCount == 0
  {
    node := new AstNode(Stop, None, 0);
  }
}
