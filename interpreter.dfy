/**
 * interpreter.c's `Interpreter` object: a fixed store of 1000 `int` variables
 * updated in place, the `running` flag, the GOSUB return stack with its capacity,
 * the data pointer, and the lines handed to the output callback. Each method is
 * proved to do what the function of the same statement in module `Execution`
 * says: when that function succeeds the method ends in the state it computes,
 * and when it fails (where the C code exits or has undefined behaviour) the
 * method reports the same error.
 */
module Interpreting {
  import opened Wrappers
  import opened CLib
  import opened Execution

  /** The method's outcome `r` and final state `t` are those of the specification's result `spec`. */
  ghost predicate Reflects(spec: Result<State, RuntimeError>, r: Outcome<RuntimeError>, t: State) {
    match spec
    case Success(u) => r == Pass && t == u
    case Failure(e) => r == Fail(e)
  }

  class Interpreter {
    const variables: array<int>
    var running: bool
    var returnStack: seq<Node>
    var returnStackCapacity: int
    var dataPointer: int
    /** The lines passed to the output callback (or printed when there is none), oldest first. */
    var output: seq<string>

    ghost function Current(): State
      reads this, variables
    {
      State(variables[..], running, returnStack, returnStackCapacity, dataPointer, output)
    }

    ghost predicate Valid()
      reads this, variables
    {
      variables.Length == VariableCount && StateOk(Current())
    }

    /** `interpreter_new`: zeroed variables, running, an empty stack without capacity. */
    constructor ()
      ensures Valid() && Current() == Initial([]) && fresh(variables)
    {
      variables := new int[VariableCount](_ => 0);
      running := true;
      returnStack := [];
      returnStackCapacity := 0;
      dataPointer := 0;
      output := [];
      new;
      assert variables[..] == Zeros(VariableCount);
    }

    /** `interpreter_init`: back to the initial state; the output so far stays. */
    method Init()
      requires variables.Length == VariableCount
      modifies this, variables
      ensures Valid() && Current() == Initial(old(output))
    {
      forall i | 0 <= i < variables.Length {
        variables[i] := 0;
      }
      running := true;
      returnStack := [];
      returnStackCapacity := 0;
      dataPointer := 0;
      assert variables[..] == Zeros(VariableCount);
    }

    /** `run_program`. */
    method RunProgram(ast: Node, fuel: nat) returns (r: Outcome<RuntimeError>)
      requires Valid()
      modifies this, variables
      ensures Valid()
      ensures Reflects(Run(ast, old(Current()), fuel), r, Current())
    {
      if ast.nodeType != "program" {
        return Fail(ExpectedProgramNode);
      }
      r := ExecuteStatements(ast, fuel);
    }

    /** `execute_block`. */
    method ExecuteBlock(node: Node, fuel: nat) returns (r: Outcome<RuntimeError>)
      requires Valid()
      modifies this, variables
      ensures Valid()
      ensures Reflects(Block(node, old(Current()), fuel), r, Current())
      decreases node, 1
    {
      if node.nodeType != "block" {
        return Fail(ExpectedBlockNode);
      }
      r := ExecuteStatements(node, fuel);
    }

    /** The loop `run_program` and `execute_block` share: each child in turn until `running` is false. */
    method ExecuteStatements(node: Node, fuel: nat) returns (r: Outcome<RuntimeError>)
      requires Valid()
      modifies this, variables
      ensures Valid()
      ensures Reflects(Statements(node, 0, old(Current()), fuel), r, Current())
      decreases node, 0
    {
      var i := 0;
      while i < |node.children|
        invariant Valid() && 0 <= i <= |node.children|
        invariant Statements(node, 0, old(Current()), fuel) == Statements(node, i, Current(), fuel)
      {
        r := ExecuteStatement(node.children[i], fuel);
        if r.Fail? {
          return;
        }
        if !running {
          return Pass;
        }
        i := i + 1;
      }
      return Pass;
    }

    /** `execute_statement`. */
    method ExecuteStatement(node: Node, fuel: nat) returns (r: Outcome<RuntimeError>)
      requires Valid()
      modifies this, variables
      ensures Valid()
      ensures Reflects(Statement(node, old(Current()), fuel), r, Current())
      decreases node, 3
    {
      if !running {
        return Pass;
      }
      if node.nodeType == "print_statement" {
        r := ExecutePrint(node);
      } else if node.nodeType == "assignment" {
        r := ExecuteAssignment(node);
      } else if node.nodeType == "if_statement" {
        r := ExecuteIf(node, fuel);
      } else if node.nodeType == "while_loop" {
        r := ExecuteWhile(node, fuel);
      } else if node.nodeType == "for_loop" {
        r := ExecuteFor(node, fuel);
      } else if node.nodeType == "repeat_until" {
        r := ExecuteRepeatUntil(node, fuel);
      } else if node.nodeType == "select_case" {
        r := ExecuteSelectCase(node, fuel);
      } else if node.nodeType == "goto_statement" {
        r := Pass;
      } else if node.nodeType == "gosub_statement" {
        PushReturnStack(node);
        r := Pass;
      } else if node.nodeType == "return_statement" {
        r := ExecuteReturn();
      } else if node.nodeType == "on_error_goto" || node.nodeType == "data_statement" || node.nodeType == "read_statement" {
        r := Pass;
      } else {
        r := Fail(UnknownStatementType(node.nodeType));
      }
    }

    /** `execute_print`. */
    method ExecutePrint(node: Node) returns (r: Outcome<RuntimeError>)
      requires Valid()
      modifies this
      ensures Valid()
      ensures Reflects(PrintStatement(node, old(Current())), r, Current())
    {
      if |node.children| < 1 {
        return Fail(MalformedNode);
      }
      var v := Evaluate(node.children[0], variables[..]);
      if v.Failure? {
        return Fail(v.error);
      }
      output := output + [IntToDecimal(v.value)];
      r := Pass;
    }

    /** `execute_assignment`. */
    method ExecuteAssignment(node: Node) returns (r: Outcome<RuntimeError>)
      requires Valid()
      modifies variables
      ensures Valid()
      ensures Reflects(Assignment(node, old(Current())), r, Current())
    {
      if |node.children| < 2 {
        return Fail(MalformedNode);
      }
      var v := Evaluate(node.children[1], variables[..]);
      if v.Failure? {
        return Fail(v.error);
      }
      var index := NumberOf(node.children[0].value);
      if index.Failure? {
        return Fail(index.error);
      }
      if !(0 <= index.value < variables.Length) {
        return Fail(VariableOutOfRange(index.value));
      }
      variables[index.value] := v.value;
      r := Pass;
    }

    /** `execute_if`. */
    method ExecuteIf(node: Node, fuel: nat) returns (r: Outcome<RuntimeError>)
      requires Valid()
      modifies this, variables
      ensures Valid()
      ensures Reflects(If(node, old(Current()), fuel), r, Current())
      decreases node, 2
    {
      if |node.children| < 1 {
        return Fail(MalformedNode);
      }
      var c := Evaluate(node.children[0], variables[..]);
      if c.Failure? {
        return Fail(c.error);
      }
      if c.value != 0 {
        if |node.children| < 2 {
          return Fail(MalformedNode);
        }
        r := ExecuteBlock(node.children[1], fuel);
      } else if |node.children| > 2 {
        r := ExecuteBlock(node.children[2], fuel);
      } else {
        r := Pass;
      }
    }

    /** `execute_while`; the body runs at most `fuel` times. */
    method ExecuteWhile(node: Node, fuel: nat) returns (r: Outcome<RuntimeError>)
      requires Valid()
      modifies this, variables
      ensures Valid()
      ensures Reflects(While(node, old(Current()), fuel, fuel), r, Current())
      decreases node, 2
    {
      var left := fuel;
      while true
        invariant Valid()
        invariant While(node, old(Current()), fuel, fuel) == While(node, Current(), fuel, left)
        decreases left
      {
        if |node.children| < 1 {
          return Fail(MalformedNode);
        }
        var c := Evaluate(node.children[0], variables[..]);
        if c.Failure? {
          return Fail(c.error);
        }
        if c.value == 0 {
          return Pass;
        }
        if left == 0 {
          return Fail(OutOfFuel);
        }
        if |node.children| < 2 {
          return Fail(MalformedNode);
        }
        r := ExecuteBlock(node.children[1], fuel);
        if r.Fail? {
          return;
        }
        if !running {
          return Pass;
        }
        left := left - 1;
      }
    }

    /** `execute_for`; the body runs at most `fuel` times. */
    method ExecuteFor(node: Node, fuel: nat) returns (r: Outcome<RuntimeError>)
      requires Valid()
      modifies this, variables
      ensures Valid()
      ensures Reflects(For(node, old(Current()), fuel), r, Current())
      decreases node, 2
    {
      var h := ForHeader(node, variables[..]);
      if h.Failure? {
        return Fail(h.error);
      }
      var bounds := h.value;
      r := ExecuteForLoop(node, bounds.index, bounds.init, bounds.end, bounds.step, fuel);
    }

    /** The counting loop of `execute_for`, from the loop variable's first value on. */
    method ExecuteForLoop(node: Node, index: int, init: int, end: int, step: int, fuel: nat)
      returns (r: Outcome<RuntimeError>)
      requires Valid()
      modifies this, variables
      ensures Valid()
      ensures Reflects(ForLoop(node, index, init, end, step, old(Current()), fuel, fuel), r, Current())
      decreases node, 1
    {
      var i := init;
      var left := fuel;
      while true
        invariant Valid()
        invariant ForLoop(node, index, init, end, step, old(Current()), fuel, fuel)
          == ForLoop(node, index, i, end, step, Current(), fuel, left)
        decreases left
      {
        if i > end {
          return Pass;
        }
        if left == 0 {
          return Fail(OutOfFuel);
        }
        if !(0 <= index < variables.Length) {
          return Fail(VariableOutOfRange(index));
        }
        if !IsInt32(i) {
          return Fail(Overflow);
        }
        if |node.children| < 4 {
          return Fail(MalformedNode);
        }
        ghost var before := Current();
        r := ExecuteForBody(node, index, i, fuel);
        if r.Fail? {
          return;
        }
        if !running {
          return Pass;
        }
        if !IsInt32(i + step) {
          return Fail(Overflow);
        }
        assert ForLoop(node, index, i, end, step, before, fuel, left)
          == ForLoop(node, index, i + step, end, step, Current(), fuel, left - 1);
        i := i + step;
        left := left - 1;
      }
    }

    /** One pass of `execute_for`: the loop variable is set, then the body block runs. */
    method ExecuteForBody(node: Node, index: int, i: int, fuel: nat) returns (r: Outcome<RuntimeError>)
      requires Valid() && 0 <= index < VariableCount && IsInt32(i) && |node.children| >= 4
      modifies this, variables
      ensures Valid()
      ensures Reflects(Block(node.children[3], old(Current()).(vars := old(Current()).vars[index := i]), fuel), r, Current())
      decreases node, 0
    {
      variables[index] := i;
      assert Current() == old(Current()).(vars := old(Current()).vars[index := i]);
      r := ExecuteBlock(node.children[3], fuel);
    }

    /** `execute_repeat_until`; the body runs at most `fuel` times. */
    method ExecuteRepeatUntil(node: Node, fuel: nat) returns (r: Outcome<RuntimeError>)
      requires Valid()
      modifies this, variables
      ensures Valid()
      ensures Reflects(RepeatUntil(node, old(Current()), fuel, fuel), r, Current())
      decreases node, 2
    {
      var left := fuel;
      while true
        invariant Valid()
        invariant RepeatUntil(node, old(Current()), fuel, fuel) == RepeatUntil(node, Current(), fuel, left)
        decreases left
      {
        if left == 0 {
          return Fail(OutOfFuel);
        }
        if |node.children| < 1 {
          return Fail(MalformedNode);
        }
        r := ExecuteBlock(node.children[0], fuel);
        if r.Fail? {
          return;
        }
        if |node.children| < 2 {
          return Fail(MalformedNode);
        }
        var c := Evaluate(node.children[1], variables[..]);
        if c.Failure? {
          return Fail(c.error);
        }
        if !(c.value == 0 && running) {
          return Pass;
        }
        left := left - 1;
      }
    }

    /** `execute_select_case`. */
    method ExecuteSelectCase(node: Node, fuel: nat) returns (r: Outcome<RuntimeError>)
      requires Valid()
      modifies this, variables
      ensures Valid()
      ensures Reflects(SelectCase(node, old(Current()), fuel), r, Current())
      decreases node, 2
    {
      if |node.children| < 1 {
        return Fail(MalformedNode);
      }
      var v := Evaluate(node.children[0], variables[..]);
      if v.Failure? {
        return Fail(v.error);
      }
      var i := 1;
      while i < |node.children|
        invariant Valid() && 1 <= i
        invariant unchanged(this) && variables[..] == old(variables[..])
        invariant SelectCase(node, old(Current()), fuel) == Arms(node, v.value, i, Current(), fuel)
        decreases |node.children| - i
      {
        var arm := node.children[i];
        if |arm.children| < 1 {
          return Fail(MalformedNode);
        }
        var c := Evaluate(arm.children[0], variables[..]);
        if c.Failure? {
          return Fail(c.error);
        }
        if v.value == c.value {
          if |arm.children| < 2 {
            return Fail(MalformedNode);
          }
          r := ExecuteBlock(arm.children[1], fuel);
          return;
        }
        i := i + 1;
      }
      return Pass;
    }

    /** `execute_return`: an empty stack is an error, otherwise pop. */
    method ExecuteReturn() returns (r: Outcome<RuntimeError>)
      requires Valid()
      modifies this
      ensures Valid()
      ensures Reflects(Return(old(Current())), r, Current())
    {
      if |returnStack| == 0 {
        return Fail(ReturnWithoutGosub);
      }
      var top := PopReturnStack();
      r := Pass;
    }

    /** `push_return_stack`. */
    method PushReturnStack(node: Node)
      requires Valid()
      modifies this
      ensures Valid() && Current() == Push(old(Current()), node)
    {
      if |returnStack| >= returnStackCapacity {
        returnStackCapacity := if returnStackCapacity == 0 then 10 else returnStackCapacity * 2;
      }
      returnStack := returnStack + [node];
    }

    /** `pop_return_stack`: the top node, or nothing on an empty stack. */
    method PopReturnStack() returns (top: Option<Node>)
      requires Valid()
      modifies this
      ensures Valid() && (top, Current()) == Pop(old(Current()))
    {
      if |returnStack| == 0 {
        return None;
      }
      top := Some(returnStack[|returnStack| - 1]);
      returnStack := returnStack[..|returnStack| - 1];
    }
  }
}
