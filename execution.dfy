/**
 * The meaning of interpreter.c's statements and expressions, as functions on an
 * interpreter state. interpreter.c works on nodes whose type is a string
 * ("print_statement", "operator", ...), a different representation from ast.c's
 * enumeration, so the nodes here are its own.
 *
 * Where the C code stops the process with `exit(1)` the result is a
 * `RuntimeError`; where it would have undefined behaviour (signed overflow,
 * division by zero, a missing child, a NULL value, a variable index outside the
 * store) the result is a `RuntimeError` too. WHILE and FOR loops need not stop,
 * so every loop may run its body at most `fuel` times in one execution; a loop
 * that wants more ends with `OutOfFuel`.
 */
module Execution {
  import opened Wrappers
  import opened CLib

  /** An AST node as interpreter.c reads it: a type name, an optional text and the children. */
  datatype Node = Node(nodeType: string, value: Option<string>, children: seq<Node>)

  datatype RuntimeError =
    | ExpectedProgramNode                         // run_program on a node that is not "program"
    | ExpectedBlockNode                           // execute_block on a node that is not "block"
    | UnknownStatementType(statementType: string)
    | UnknownExpressionType(expressionType: string)
    | UnknownOperator(operator: string)
    | ReturnWithoutGosub
    | DivisionByZero                              // undefined behaviour in C
    | Overflow                                    // a value outside `int`: undefined behaviour in C
    | VariableOutOfRange(index: int)              // outside the 1000 slots: undefined behaviour in C
    | MalformedNode                               // a child or a text the code reads is missing
    | OutOfFuel                                   // a loop wanted more than `fuel` runs of its body

  /** The number of integer variables `interpreter_new` allocates. */
  const VariableCount := 1000

  /** The interpreter's state; `output` holds the lines handed to the output callback. */
  datatype State = State(
    vars: seq<int>,
    running: bool,
    stack: seq<Node>,
    capacity: int,
    dataPointer: int,
    output: seq<string>)

  predicate AllInt32(vars: seq<int>) {
    forall i :: 0 <= i < |vars| ==> IsInt32(vars[i])
  }

  /** What every reachable state satisfies: 1000 `int` variables and a stack within its capacity. */
  predicate StateOk(s: State) {
    |s.vars| == VariableCount && AllInt32(s.vars) && |s.stack| <= s.capacity
  }

  function Zeros(n: nat): (z: seq<int>)
    ensures |z| == n && forall i :: 0 <= i < n ==> z[i] == 0
  {
    if n == 0 then [] else Zeros(n - 1) + [0]
  }

  /** The state `interpreter_new` and `interpreter_init` produce, with the output so far. */
  function Initial(output: seq<string>): (s: State)
    ensures StateOk(s) && s.running && s.stack == [] && s.output == output
    ensures forall i :: 0 <= i < VariableCount ==> s.vars[i] == 0
  {
    State(Zeros(VariableCount), true, [], 0, 0, output)
  }

  /**
   * A successful step from `s` keeps the number of variables, the `running` flag
   * and the data pointer, only appends to the output, and keeps `StateOk`.
   */
  predicate Follows(s: State, r: Result<State, RuntimeError>) {
    r.Success? ==>
      |r.value.vars| == |s.vars| && r.value.running == s.running &&
      r.value.dataPointer == s.dataPointer &&
      s.output <= r.value.output &&
      (StateOk(s) ==> StateOk(r.value))
  }

  // ------------------------------------------------------------------ expressions

  /** C's `/` on `int`: the quotient truncated toward zero. */
  function CDiv(a: int, b: int): (q: int)
    requires b != 0
    ensures var rem := a - q * b;
            (rem == 0 || (rem < 0 <==> a < 0)) &&
            (if b > 0 then -b < rem < b else b < rem < -b)
  {
    var m := if a < 0 then -a else a;
    var n := if b < 0 then -b else b;
    var q0 := m / n;
    assert m == q0 * n + m % n;
    if (a < 0) == (b < 0) then
      assert a - q0 * b == (if a < 0 then -(m % n) else m % n);
      q0
    else
      assert a - (-q0) * b == (if a < 0 then -(m % n) else m % n);
      -q0
  }

  /** An `int` result, or `Overflow` when the exact value does not fit. */
  function Int32Result(n: int): (r: Result<int, RuntimeError>)
    ensures r.Success? <==> IsInt32(n)
    ensures r.Success? ==> r.value == n
  {
    if IsInt32(n) then Success(n) else Failure(Overflow)
  }

  /** The four operators of `evaluate_expression`; any other operator text is an error. */
  function ApplyOperator(op: string, left: int, right: int): (r: Result<int, RuntimeError>)
    ensures r.Success? ==> IsInt32(r.value)
    ensures op == "+" ==> r == Int32Result(left + right)
    ensures op == "-" ==> r == Int32Result(left - right)
    ensures op == "*" ==> r == Int32Result(left * right)
    ensures op == "/" ==> (right == 0 <==> r == Failure(DivisionByZero))
    ensures op == "/" && right != 0 ==> r == Int32Result(CDiv(left, right))
    ensures op !in {"+", "-", "*", "/"} ==> r == Failure(UnknownOperator(op))
  {
    if op == "+" then Int32Result(left + right)
    else if op == "-" then Int32Result(left - right)
    else if op == "*" then Int32Result(left * right)
    else if op == "/" then (if right == 0 then Failure(DivisionByZero) else Int32Result(CDiv(left, right)))
    else Failure(UnknownOperator(op))
  }

  /** `atoi` of a node's text; a NULL text is an error. */
  function NumberOf(value: Option<string>): (r: Result<int, RuntimeError>)
    ensures value.None? <==> r.Failure?
  {
    if value.None? then Failure(MalformedNode) else Success(Atoi(value.value))
  }

  /**
   * `evaluate_expression`: an "int_literal" is the `atoi` of its text, an
   * "identifier" is the variable whose number its text spells, an "operator"
   * applies its text to its two children evaluated left to right.
   */
  function Evaluate(node: Node, vars: seq<int>): (r: Result<int, RuntimeError>)
    decreases node
    ensures r.Success? && AllInt32(vars) ==> IsInt32(r.value)
    ensures node.nodeType !in {"int_literal", "identifier", "operator"} ==>
              r == Failure(UnknownExpressionType(node.nodeType))
  {
    if node.nodeType == "int_literal" then
      var n :- NumberOf(node.value);
      Int32Result(n)
    else if node.nodeType == "identifier" then
      var index :- NumberOf(node.value);
      if 0 <= index < |vars| then Success(vars[index]) else Failure(VariableOutOfRange(index))
    else if node.nodeType == "operator" then
      if |node.children| < 2 then Failure(MalformedNode)
      else
        var left :- Evaluate(node.children[0], vars);
        var right :- Evaluate(node.children[1], vars);
        if node.value.None? then Failure(MalformedNode)
        else ApplyOperator(node.value.value, left, right)
    else Failure(UnknownExpressionType(node.nodeType))
  }

  /** The variable numbers an expression reads. */
  function SlotsRead(node: Node): set<int>
    decreases node
  {
    if node.nodeType == "identifier" && node.value.Some? then {Atoi(node.value.value)}
    else if node.nodeType == "operator" && |node.children| >= 2 then
      SlotsRead(node.children[0]) + SlotsRead(node.children[1])
    else {}
  }

  /** Evaluation depends only on the variables the expression names. */
  lemma {:induction false} EvaluateReadsOnlyItsSlots(node: Node, vars: seq<int>, vars': seq<int>)
    requires |vars| == |vars'|
    requires forall i :: i in SlotsRead(node) && 0 <= i < |vars| ==> vars[i] == vars'[i]
    ensures Evaluate(node, vars) == Evaluate(node, vars')
    decreases node
  {
    if node.nodeType == "operator" && |node.children| >= 2 {
      EvaluateReadsOnlyItsSlots(node.children[0], vars, vars');
      EvaluateReadsOnlyItsSlots(node.children[1], vars, vars');
    }
  }

  /** An integer literal whose text is the decimal form of an `int` evaluates to that `int`. */
  lemma EvaluateDecimalLiteral(n: int, children: seq<Node>, vars: seq<int>)
    requires IsInt32(n)
    ensures Evaluate(Node("int_literal", Some(IntToDecimal(n)), children), vars) == Success(n)
  {
    AtoiOfIntToDecimal(n);
  }

  /** An identifier whose text is the decimal form of a slot number reads that slot. */
  lemma EvaluateIdentifier(slot: int, children: seq<Node>, vars: seq<int>)
    requires 0 <= slot < |vars|
    ensures Evaluate(Node("identifier", Some(IntToDecimal(slot)), children), vars) == Success(vars[slot])
  {
    AtoiOfIntToDecimal(slot);
  }

  /** An identifier reads the slot `atoi` gives for its name, whatever the name is. */
  lemma EvaluateIdentifierReadsAtoiSlot(name: string, children: seq<Node>, vars: seq<int>)
    requires 0 <= Atoi(name) < |vars|
    ensures Evaluate(Node("identifier", Some(name), children), vars) == Success(vars[Atoi(name)])
  {
  }

  /** An identifier whose name starts with a letter reads slot 0. */
  lemma EvaluateLetterName(name: string, children: seq<Node>, vars: seq<int>)
    requires name != [] && IsAlpha(name[0]) && |vars| > 0
    ensures Evaluate(Node("identifier", Some(name), children), vars) == Success(vars[0])
  {
    AtoiOfLetterName(name);
  }

  /**
   * An integer literal made only of digits, leading zeros included, evaluates to
   * the number they write, or to an overflow error when that does not fit an `int`.
   */
  lemma EvaluateDigitLiteral(text: string, children: seq<Node>, vars: seq<int>)
    requires AllDigits(text)
    ensures Evaluate(Node("int_literal", Some(text), children), vars) == Int32Result(DecimalValue(text))
  {
    AtoiOfDigits(text);
  }

  /**
   * An operator node applies its text to the values of its first two children,
   * the left one evaluated first; an error in either child is the node's error.
   */
  lemma EvaluateOperator(op: string, children: seq<Node>, vars: seq<int>)
    requires |children| >= 2
    ensures Evaluate(children[0], vars).Failure? ==>
              Evaluate(Node("operator", Some(op), children), vars) == Failure(Evaluate(children[0], vars).error)
    ensures Evaluate(children[0], vars).Success? && Evaluate(children[1], vars).Failure? ==>
              Evaluate(Node("operator", Some(op), children), vars) == Failure(Evaluate(children[1], vars).error)
    ensures Evaluate(children[0], vars).Success? && Evaluate(children[1], vars).Success? ==>
              Evaluate(Node("operator", Some(op), children), vars) ==
              ApplyOperator(op, Evaluate(children[0], vars).value, Evaluate(children[1], vars).value)
  {
  }

  /** The tree the parser builds for `2 + 3 * 4` evaluates to 14. */
  lemma EvaluatePrecedenceExample(vars: seq<int>)
    ensures Evaluate(
              Node("operator", Some("+"), [
                Node("int_literal", Some("2"), []),
                Node("operator", Some("*"), [
                  Node("int_literal", Some("3"), []),
                  Node("int_literal", Some("4"), [])])]), vars) == Success(14)
  {
    var two := Node("int_literal", Some("2"), []);
    var three := Node("int_literal", Some("3"), []);
    var four := Node("int_literal", Some("4"), []);
    EvaluateDigitLiteral("2", [], vars);
    EvaluateDigitLiteral("3", [], vars);
    EvaluateDigitLiteral("4", [], vars);
    var product := Node("operator", Some("*"), [three, four]);
    EvaluateOperator("*", [three, four], vars);
    assert Evaluate(product, vars) == Success(12);
    EvaluateOperator("+", [two, product], vars);
  }

  // ------------------------------------------------------------------ the return stack

  /** `push_return_stack`: grow the capacity when full (to 10, then doubling), then push. */
  function Push(s: State, node: Node): (r: State)
    ensures r.stack == s.stack + [node]
    ensures r.capacity == s.capacity || (s.capacity == 0 && r.capacity == 10) || r.capacity == 2 * s.capacity
    ensures |s.stack| <= s.capacity ==> |r.stack| <= r.capacity
    ensures r == s.(stack := r.stack, capacity := r.capacity)
  {
    var capacity :=
      if |s.stack| >= s.capacity then (if s.capacity == 0 then 10 else s.capacity * 2) else s.capacity;
    s.(stack := s.stack + [node], capacity := capacity)
  }

  /** `pop_return_stack`: the most recent push, or nothing (and no change) when the stack is empty. */
  function Pop(s: State): (r: (Option<Node>, State))
    ensures s.stack == [] ==> r == (None, s)
    ensures s.stack != [] ==> r.0 == Some(s.stack[|s.stack| - 1]) && r.1 == s.(stack := s.stack[..|s.stack| - 1])
  {
    if |s.stack| == 0 then (None, s)
    else (Some(s.stack[|s.stack| - 1]), s.(stack := s.stack[..|s.stack| - 1]))
  }

  /** The stack is last in, first out: a pop right after a push gives back the pushed node and the stack before it. */
  lemma PopAfterPush(s: State, node: Node)
    ensures Pop(Push(s, node)) == (Some(node), Push(s, node).(stack := s.stack))
  {
    var t := Push(s, node);
    assert t.stack[..|t.stack| - 1] == s.stack;
  }

  // ------------------------------------------------------------------ statements

  /** `execute_print`: one line, the decimal form of the expression's value. */
  function PrintStatement(node: Node, s: State): (r: Result<State, RuntimeError>)
    ensures Follows(s, r)
    ensures r.Success? <==> |node.children| >= 1 && Evaluate(node.children[0], s.vars).Success?
    ensures r.Success? ==>
              r.value == s.(output := s.output + [IntToDecimal(Evaluate(node.children[0], s.vars).value)])
    ensures r.Success? ==>
              Evaluate(node.children[0], s.vars) == Success(Atoi(r.value.output[|s.output|]))
  {
    if |node.children| < 1 then Failure(MalformedNode)
    else
      var v :- Evaluate(node.children[0], s.vars);
      AtoiOfIntToDecimal(v);
      Success(s.(output := s.output + [IntToDecimal(v)]))
  }

  /** `execute_assignment`: the expression's value into the variable the target's text numbers. */
  function Assignment(node: Node, s: State): (r: Result<State, RuntimeError>)
    ensures Follows(s, r)
    ensures r.Success? ==>
              |node.children| >= 2 && node.children[0].value.Some? &&
              var slot := Atoi(node.children[0].value.value);
              0 <= slot < |s.vars| && Evaluate(node.children[1], s.vars) == Success(r.value.vars[slot]) &&
              r.value == s.(vars := s.vars[slot := r.value.vars[slot]])
    ensures |node.children| >= 2 && Evaluate(node.children[1], s.vars).Success? &&
            node.children[0].value.Some? && 0 <= Atoi(node.children[0].value.value) < |s.vars| ==>
              r.Success?
  {
    if |node.children| < 2 then Failure(MalformedNode)
    else
      var v :- Evaluate(node.children[1], s.vars);
      var index :- NumberOf(node.children[0].value);
      if 0 <= index < |s.vars| then Success(s.(vars := s.vars[index := v]))
      else Failure(VariableOutOfRange(index))
  }

  /** `execute_return`: pop the stack; an empty stack is an error. */
  function Return(s: State): (r: Result<State, RuntimeError>)
    ensures Follows(s, r)
    ensures r.Success? <==> s.stack != []
  {
    if |s.stack| == 0 then Failure(ReturnWithoutGosub) else Success(Pop(s).1)
  }

  /** The statement types `execute_statement` dispatches on. */
  const StatementTypes: set<string> := {
    "print_statement", "assignment", "if_statement", "while_loop", "for_loop", "repeat_until",
    "select_case", "goto_statement", "gosub_statement", "return_statement", "on_error_goto",
    "data_statement", "read_statement"}

  /** `execute_statement`: nothing once `running` is false, otherwise the handler for the node's type. */
  function Statement(node: Node, s: State, fuel: nat): (r: Result<State, RuntimeError>)
    decreases node, 3, 0
    ensures Follows(s, r)
    ensures !s.running ==> r == Success(s)
    ensures s.running && node.nodeType !in StatementTypes ==> r == Failure(UnknownStatementType(node.nodeType))
  {
    if !s.running then Success(s)
    else if node.nodeType == "print_statement" then PrintStatement(node, s)
    else if node.nodeType == "assignment" then Assignment(node, s)
    else if node.nodeType == "if_statement" then If(node, s, fuel)
    else if node.nodeType == "while_loop" then While(node, s, fuel, fuel)
    else if node.nodeType == "for_loop" then For(node, s, fuel)
    else if node.nodeType == "repeat_until" then RepeatUntil(node, s, fuel, fuel)
    else if node.nodeType == "select_case" then SelectCase(node, s, fuel)
    else if node.nodeType == "goto_statement" then Success(s)
    else if node.nodeType == "gosub_statement" then Success(Push(s, node))
    else if node.nodeType == "return_statement" then Return(s)
    else if node.nodeType == "on_error_goto" then Success(s)
    else if node.nodeType == "data_statement" then Success(s)
    else if node.nodeType == "read_statement" then Success(s)
    else Failure(UnknownStatementType(node.nodeType))
  }

  /** `execute_if`: the THEN block on a non-zero condition, else the ELSE block when there is one. */
  function If(node: Node, s: State, fuel: nat): (r: Result<State, RuntimeError>)
    decreases node, 2, 0
    ensures Follows(s, r)
  {
    if |node.children| < 1 then Failure(MalformedNode)
    else
      var c :- Evaluate(node.children[0], s.vars);
      if c != 0 then
        if |node.children| < 2 then Failure(MalformedNode) else Block(node.children[1], s, fuel)
      else if |node.children| > 2 then Block(node.children[2], s, fuel)
      else Success(s)
  }

  /** `execute_while`, with at most `left` more runs of the body. */
  function While(node: Node, s: State, fuel: nat, left: nat): (r: Result<State, RuntimeError>)
    decreases node, 2, left
    ensures Follows(s, r)
  {
    if |node.children| < 1 then Failure(MalformedNode)
    else
      var c :- Evaluate(node.children[0], s.vars);
      if c == 0 then Success(s)
      else if left == 0 then Failure(OutOfFuel)
      else if |node.children| < 2 then Failure(MalformedNode)
      else
        var b :- Block(node.children[1], s, fuel);
        if !b.running then Success(b) else While(node, b, fuel, left - 1)
  }

  /** `execute_for`: the bounds, the step (1 without a third child) and the loop variable, then the loop. */
  function For(node: Node, s: State, fuel: nat): (r: Result<State, RuntimeError>)
    decreases node, 2, 0
    ensures Follows(s, r)
  {
    var h :- ForHeader(node, s.vars);
    ForLoop(node, h.index, h.init, h.end, h.step, s, fuel, fuel)
  }

  /** What `execute_for` computes before its loop. */
  datatype ForBounds = ForBounds(init: int, end: int, step: int, index: int)

  /**
   * The start and end values, the step (1 without a third child) and the loop
   * variable's number, which is the text of the start expression's first child.
   */
  function ForHeader(node: Node, vars: seq<int>): (r: Result<ForBounds, RuntimeError>)
    ensures r.Success? ==>
              |node.children| >= 2 &&
              Evaluate(node.children[0], vars) == Success(r.value.init) &&
              Evaluate(node.children[1], vars) == Success(r.value.end) &&
              (|node.children| > 2 ==> Evaluate(node.children[2], vars) == Success(r.value.step)) &&
              (|node.children| <= 2 ==> r.value.step == 1)
  {
    if |node.children| < 2 then Failure(MalformedNode)
    else
      var init :- Evaluate(node.children[0], vars);
      var end :- Evaluate(node.children[1], vars);
      var step :- if |node.children| > 2 then Evaluate(node.children[2], vars) else Success(1);
      if |node.children[0].children| < 1 then Failure(MalformedNode)
      else
        var index :- NumberOf(node.children[0].children[0].value);
        Success(ForBounds(init, end, step, index))
  }

  /**
   * The loop of `execute_for` at loop value `i`, with at most `left` more runs of
   * the body: while `i <= end`, set the variable to `i`, run the body, add `step`.
   */
  function ForLoop(node: Node, index: int, i: int, end: int, step: int, s: State, fuel: nat, left: nat)
    : (r: Result<State, RuntimeError>)
    decreases node, 1, left
    ensures Follows(s, r)
  {
    if i > end then Success(s)
    else if left == 0 then Failure(OutOfFuel)
    else if !(0 <= index < |s.vars|) then Failure(VariableOutOfRange(index))
    else if !IsInt32(i) then Failure(Overflow)
    else if |node.children| < 4 then Failure(MalformedNode)
    else
      var b :- Block(node.children[3], s.(vars := s.vars[index := i]), fuel);
      if !b.running then Success(b)
      else if !IsInt32(i + step) then Failure(Overflow)
      else ForLoop(node, index, i + step, end, step, b, fuel, left - 1)
  }

  /** `execute_repeat_until`: the body, then the condition; again while it is zero and `running` holds. */
  function RepeatUntil(node: Node, s: State, fuel: nat, left: nat): (r: Result<State, RuntimeError>)
    decreases node, 2, left
    ensures Follows(s, r)
  {
    if left == 0 then Failure(OutOfFuel)
    else if |node.children| < 1 then Failure(MalformedNode)
    else
      var b :- Block(node.children[0], s, fuel);
      if |node.children| < 2 then Failure(MalformedNode)
      else
        var c :- Evaluate(node.children[1], b.vars);
        if c == 0 && b.running then RepeatUntil(node, b, fuel, left - 1) else Success(b)
  }

  /** `execute_select_case`: evaluate the selector once, then try the arms in order. */
  function SelectCase(node: Node, s: State, fuel: nat): (r: Result<State, RuntimeError>)
    decreases node, 2, 0
    ensures Follows(s, r)
  {
    if |node.children| < 1 then Failure(MalformedNode)
    else
      var v :- Evaluate(node.children[0], s.vars);
      Arms(node, v, 1, s, fuel)
  }

  /** The arms of a SELECT CASE from child `i` on: the block of the first arm whose value is `v`. */
  function Arms(node: Node, v: int, i: nat, s: State, fuel: nat): (r: Result<State, RuntimeError>)
    decreases node, 1, |node.children| - i
    ensures Follows(s, r)
  {
    if i >= |node.children| then Success(s)
    else
      var arm := node.children[i];
      if |arm.children| < 1 then Failure(MalformedNode)
      else
        var c :- Evaluate(arm.children[0], s.vars);
        if v == c then
          if |arm.children| < 2 then Failure(MalformedNode) else Block(arm.children[1], s, fuel)
        else Arms(node, v, i + 1, s, fuel)
  }

  /** `execute_block`: a "block" node's statements in order. */
  function Block(node: Node, s: State, fuel: nat): (r: Result<State, RuntimeError>)
    decreases node, 1, 0
    ensures Follows(s, r)
    ensures node.nodeType != "block" ==> r == Failure(ExpectedBlockNode)
  {
    if node.nodeType != "block" then Failure(ExpectedBlockNode) else Statements(node, 0, s, fuel)
  }

  /** The statements of `node` from child `i` on, stopping early once `running` is false. */
  function Statements(node: Node, i: nat, s: State, fuel: nat): (r: Result<State, RuntimeError>)
    decreases node, 0, |node.children| - i
    ensures Follows(s, r)
  {
    if i >= |node.children| then Success(s)
    else
      var t :- Statement(node.children[i], s, fuel);
      if !t.running then Success(t) else Statements(node, i + 1, t, fuel)
  }

  /** `run_program`: the statements of a "program" node. */
  function Run(ast: Node, s: State, fuel: nat): (r: Result<State, RuntimeError>)
    ensures Follows(s, r)
    ensures ast.nodeType != "program" ==> r == Failure(ExpectedProgramNode)
  {
    if ast.nodeType != "program" then Failure(ExpectedProgramNode) else Statements(ast, 0, s, fuel)
  }

  // ------------------------------------------------------------------ properties of statements

  /** GOTO, ON ERROR GOTO, DATA and READ change nothing. */
  lemma NoOpStatements(node: Node, s: State, fuel: nat)
    requires node.nodeType in {"goto_statement", "on_error_goto", "data_statement", "read_statement"}
    ensures Statement(node, s, fuel) == Success(s)
  {
  }

  /** Once `running` is false no statement of a block or program runs. */
  lemma StoppedStatementsDoNothing(node: Node, i: nat, s: State, fuel: nat)
    requires !s.running
    ensures Statements(node, i, s, fuel) == Success(s)
  {
    if i < |node.children| {
      assert Statement(node.children[i], s, fuel) == Success(s);
    }
  }

  /**
   * An assignment writes the value into the slot `atoi` reads from the target's
   * text, whatever that text is, and changes nothing else.
   */
  lemma AssignmentSetsOneSlot(node: Node, s: State, fuel: nat, slot: int, v: int)
    requires s.running && node.nodeType == "assignment" && |node.children| >= 2
    requires node.children[0].value.Some? && slot == Atoi(node.children[0].value.value)
    requires 0 <= slot < |s.vars|
    requires Evaluate(node.children[1], s.vars) == Success(v)
    ensures Statement(node, s, fuel) == Success(s.(vars := s.vars[slot := v]))
    ensures var t := Statement(node, s, fuel).value;
            |t.vars| == |s.vars| && t.vars[slot] == v &&
            (forall j :: 0 <= j < |s.vars| && j != slot ==> t.vars[j] == s.vars[j])
  {
  }

  /** A target written as the decimal text of a slot number assigns that slot. */
  lemma AssignmentToNumberedSlot(node: Node, s: State, fuel: nat, slot: int, v: int)
    requires s.running && node.nodeType == "assignment" && |node.children| >= 2
    requires node.children[0].value == Some(IntToDecimal(slot)) && 0 <= slot < |s.vars|
    requires Evaluate(node.children[1], s.vars) == Success(v)
    ensures Statement(node, s, fuel) == Success(s.(vars := s.vars[slot := v]))
  {
    AtoiOfIntToDecimal(slot);
  }

  /** Every target whose name starts with a letter has `atoi` value 0: all such names share slot 0. */
  lemma LetterNamesShareSlotZero(node: Node, s: State, fuel: nat, v: int)
    requires s.running && node.nodeType == "assignment" && |node.children| >= 2
    requires node.children[0].value.Some? && node.children[0].value.value != []
    requires IsAlpha(node.children[0].value.value[0]) && |s.vars| == VariableCount
    requires Evaluate(node.children[1], s.vars) == Success(v)
    ensures Statement(node, s, fuel) == Success(s.(vars := s.vars[0 := v]))
  {
    AtoiOfLetterName(node.children[0].value.value);
  }

  /** IF runs the THEN block exactly when the condition is non-zero, and otherwise the ELSE block if present. */
  lemma IfChoosesBranch(node: Node, s: State, fuel: nat, c: int)
    requires s.running && node.nodeType == "if_statement" && |node.children| >= 2
    requires Evaluate(node.children[0], s.vars) == Success(c)
    ensures c != 0 ==> Statement(node, s, fuel) == Block(node.children[1], s, fuel)
    ensures c == 0 && |node.children| > 2 ==> Statement(node, s, fuel) == Block(node.children[2], s, fuel)
    ensures c == 0 && |node.children| == 2 ==> Statement(node, s, fuel) == Success(s)
  {
  }

  /**
   * One run of a REPEAT loop, at any iteration: the body runs before the
   * condition is looked at; the loop stops after a run that makes the condition
   * non-zero or clears `running`, and otherwise goes round again from the new state.
   */
  lemma RepeatStopsWhenConditionHolds(node: Node, s: State, fuel: nat, left: nat, b: State, c: int)
    requires |node.children| >= 2 && left >= 1
    requires Block(node.children[0], s, fuel) == Success(b)
    requires Evaluate(node.children[1], b.vars) == Success(c)
    ensures c != 0 || !b.running ==> RepeatUntil(node, s, fuel, left) == Success(b)
    ensures c == 0 && b.running ==> RepeatUntil(node, s, fuel, left) == RepeatUntil(node, b, fuel, left - 1)
  {
  }

  /**
   * A REPEAT loop that finishes with `running` still set stopped because its
   * condition evaluated to a non-zero value in the final state.
   */
  lemma {:induction false} RepeatExitsOnNonZero(node: Node, s: State, fuel: nat, left: nat)
    requires RepeatUntil(node, s, fuel, left).Success? && RepeatUntil(node, s, fuel, left).value.running
    ensures var t := RepeatUntil(node, s, fuel, left).value;
            |node.children| >= 2 && Evaluate(node.children[1], t.vars).Success? &&
            Evaluate(node.children[1], t.vars) != Success(0)
    decreases left
  {
    var b := Block(node.children[0], s, fuel).value;
    var c := Evaluate(node.children[1], b.vars).value;
    if c == 0 && b.running {
      RepeatExitsOnNonZero(node, b, fuel, left - 1);
    }
  }

  /** A WHILE statement whose condition is zero leaves the state as it was and never runs its body. */
  lemma WhileSkippedWhenZero(node: Node, s: State, fuel: nat)
    requires s.running && node.nodeType == "while_loop" && |node.children| >= 1
    requires Evaluate(node.children[0], s.vars) == Success(0)
    ensures Statement(node, s, fuel) == Success(s)
  {
  }

  /**
   * One test of a WHILE loop, at any iteration: a zero condition ends the loop in
   * the current state; a non-zero one runs the body, and the loop goes round again
   * unless the body cleared `running`.
   */
  lemma WhileRunsBodyOnNonZero(node: Node, s: State, fuel: nat, left: nat, b: State, c: int)
    requires |node.children| >= 2 && left >= 1 && c != 0
    requires Evaluate(node.children[0], s.vars) == Success(c)
    requires Block(node.children[1], s, fuel) == Success(b)
    ensures !b.running ==> While(node, s, fuel, left) == Success(b)
    ensures b.running ==> While(node, s, fuel, left) == While(node, b, fuel, left - 1)
  {
  }

  /**
   * A WHILE loop that finishes with `running` still set stopped because its
   * condition evaluated to 0 in the final state.
   */
  lemma {:induction false} WhileExitsOnZero(node: Node, s: State, fuel: nat, left: nat)
    requires While(node, s, fuel, left).Success? && While(node, s, fuel, left).value.running
    ensures var t := While(node, s, fuel, left).value;
            |node.children| >= 1 && Evaluate(node.children[0], t.vars) == Success(0)
    decreases left
  {
    var c := Evaluate(node.children[0], s.vars).value;
    if c != 0 {
      var b := Block(node.children[1], s, fuel).value;
      WhileExitsOnZero(node, b, fuel, left - 1);
    }
  }

  /** After GOSUB, RETURN succeeds and restores the stack GOSUB found. */
  lemma GosubThenReturn(gosub: Node, ret: Node, s: State, fuel: nat)
    requires s.running && gosub.nodeType == "gosub_statement" && ret.nodeType == "return_statement"
    ensures Statement(gosub, s, fuel) == Success(Push(s, gosub))
    ensures Statement(ret, Push(s, gosub), fuel) == Success(Push(s, gosub).(stack := s.stack))
  {
    PopAfterPush(s, gosub);
  }

  /** The values a FOR loop from `init` to `end` by a positive `step` gives its variable. */
  function ForValues(init: int, end: int, step: int): (vs: seq<int>)
    requires step > 0
    decreases end - init + step
    ensures init > end <==> vs == []
  {
    if init > end then [] else [init] + ForValues(init + step, end, step)
  }

  /** The k-th value is `init + k*step`, each is at most `end`, and one more step would pass `end`. */
  lemma {:induction false} ForValuesAreSteps(init: int, end: int, step: int)
    requires step > 0
    ensures var vs := ForValues(init, end, step);
      (forall k :: 0 <= k < |vs| ==> vs[k] == init + k * step && vs[k] <= end) &&
      (vs != [] ==> vs[|vs| - 1] + step > end)
    decreases end - init + step
  {
    if init <= end {
      var rest := ForValues(init + step, end, step);
      ForValuesAreSteps(init + step, end, step);
      var vs := ForValues(init, end, step);
      assert vs == [init] + rest;
      forall k | 1 <= k < |vs|
        ensures vs[k] == init + k * step
      {
        assert vs[k] == rest[k - 1] == init + step + (k - 1) * step;
      }
    }
  }

  /** A FOR loop that runs its body once per value of `values`: set the variable, run the body. */
  function ForEach(node: Node, index: int, values: seq<int>, s: State, fuel: nat): (r: Result<State, RuntimeError>)
    requires |node.children| >= 4
    decreases |values|
  {
    if values == [] then Success(s)
    else if !(0 <= index < |s.vars|) then Failure(VariableOutOfRange(index))
    else if !IsInt32(values[0]) then Failure(Overflow)
    else
      var b :- Block(node.children[3], s.(vars := s.vars[index := values[0]]), fuel);
      if !b.running then Success(b) else ForEach(node, index, values[1..], b, fuel)
  }

  /**
   * Given fuel for every run and no overflow of the loop value, the FOR loop runs
   * its body for exactly the values `init`, `init + step`, ... up to `end`.
   */
  lemma {:induction false} ForLoopRunsForValues(
    node: Node, index: int, init: int, end: int, step: int, s: State, fuel: nat, left: nat)
    requires step > 0 && |node.children| >= 4
    requires IsInt32(init) && IsInt32(end + step)
    requires left >= |ForValues(init, end, step)|
    ensures ForLoop(node, index, init, end, step, s, fuel, left) == ForEach(node, index, ForValues(init, end, step), s, fuel)
    decreases left
  {
    var vs := ForValues(init, end, step);
    if init <= end && 0 <= index < |s.vars| {
      assert vs == [init] + ForValues(init + step, end, step);
      assert vs[0] == init && vs[1..] == ForValues(init + step, end, step);
      var r := Block(node.children[3], s.(vars := s.vars[index := init]), fuel);
      if r.Success? && r.value.running {
        assert IsInt32(init + step);
        ForLoopRunsForValues(node, index, init + step, end, step, r.value, fuel, left - 1);
        assert ForLoop(node, index, init, end, step, s, fuel, left)
            == ForLoop(node, index, init + step, end, step, r.value, fuel, left - 1);
        assert ForEach(node, index, vs, s, fuel) == ForEach(node, index, vs[1..], r.value, fuel);
      }
    }
  }

  /** A FOR loop whose start is above its end leaves the state as it was. */
  lemma ForSkippedWhenStartAboveEnd(node: Node, s: State, fuel: nat, init: int, end: int)
    requires s.running && node.nodeType == "for_loop" && |node.children| >= 2
    requires Evaluate(node.children[0], s.vars) == Success(init) && Evaluate(node.children[1], s.vars) == Success(end)
    requires |node.children| > 2 ==> Evaluate(node.children[2], s.vars).Success?
    requires |node.children[0].children| >= 1 && node.children[0].children[0].value.Some?
    requires init > end
    ensures Statement(node, s, fuel) == Success(s)
  {
    var h := ForHeader(node, s.vars);
    assert h.Success? && h.value.init == init && h.value.end == end;
    assert ForLoop(node, h.value.index, init, end, h.value.step, s, fuel, fuel) == Success(s);
    assert For(node, s, fuel) == Success(s);
  }

  /** Whether every arm of a SELECT CASE from child `i` on has a value, and every value evaluates. */
  predicate ArmsWellFormed(node: Node, vars: seq<int>, i: nat)
    decreases |node.children| - i
  {
    i >= |node.children| ||
    (|node.children[i].children| >= 1 && Evaluate(node.children[i].children[0], vars).Success? &&
     ArmsWellFormed(node, vars, i + 1))
  }

  /** The first arm from child `i` on whose value is `v`. */
  function FirstMatch(node: Node, v: int, vars: seq<int>, i: nat): (k: Option<nat>)
    requires 1 <= i && ArmsWellFormed(node, vars, i)
    decreases |node.children| - i
    ensures k.Some? ==> i <= k.value < |node.children| && |node.children[k.value].children| >= 1 &&
                        Evaluate(node.children[k.value].children[0], vars) == Success(v)
    ensures forall j :: i <= j < |node.children| && (k.None? || j < k.value) ==>
              |node.children[j].children| >= 1 && Evaluate(node.children[j].children[0], vars) != Success(v)
  {
    if i >= |node.children| then None
    else if Evaluate(node.children[i].children[0], vars) == Success(v) then Some(i)
    else FirstMatch(node, v, vars, i + 1)
  }

  /** SELECT CASE runs the block of the first arm whose value equals the selector, and nothing when none does. */
  lemma {:induction false} ArmsRunFirstMatch(node: Node, v: int, i: nat, s: State, fuel: nat)
    requires 1 <= i && ArmsWellFormed(node, s.vars, i)
    ensures Arms(node, v, i, s, fuel) ==
              match FirstMatch(node, v, s.vars, i)
              case None => Success(s)
              case Some(k) =>
                if |node.children[k].children| < 2 then Failure(MalformedNode)
                else Block(node.children[k].children[1], s, fuel)
    decreases |node.children| - i
  {
    if i < |node.children| {
      if Evaluate(node.children[i].children[0], s.vars) != Success(v) {
        assert FirstMatch(node, v, s.vars, i) == FirstMatch(node, v, s.vars, i + 1);
        ArmsRunFirstMatch(node, v, i + 1, s, fuel);
        ArmSkipped(node, v, i, s, fuel);
      } else {
        assert FirstMatch(node, v, s.vars, i) == Some(i);
        ArmTaken(node, v, i, s, fuel);
      }
    }
  }

  /** Whether each arm from `i` up to, not including, `k` has a value that evaluates to something other than `v`. */
  predicate SkippedArms(node: Node, v: int, vars: seq<int>, i: nat, k: nat)
    requires k < |node.children|
    decreases k - i
  {
    i >= k ||
    (|node.children[i].children| >= 1 && Evaluate(node.children[i].children[0], vars).Success? &&
     Evaluate(node.children[i].children[0], vars) != Success(v) && SkippedArms(node, v, vars, i + 1, k))
  }

  /**
   * SELECT CASE runs the block of arm `k` when arm `k` is the first from `i` on
   * whose value is the selector; the arms after `k` are never looked at, so they
   * may be malformed or fail to evaluate.
   */
  lemma {:induction false} ArmsRunMatchAt(node: Node, v: int, i: nat, k: nat, s: State, fuel: nat)
    requires 1 <= i <= k < |node.children| && |node.children[k].children| >= 2
    requires Evaluate(node.children[k].children[0], s.vars) == Success(v)
    requires SkippedArms(node, v, s.vars, i, k)
    ensures Arms(node, v, i, s, fuel) == Block(node.children[k].children[1], s, fuel)
  {
    ArmsSkipToMatch(node, v, i, k, s, fuel);
    ArmTaken(node, v, k, s, fuel);
  }

  /** The arms before the first match are passed over. */
  lemma {:induction false} ArmsSkipToMatch(node: Node, v: int, i: nat, k: nat, s: State, fuel: nat)
    requires 1 <= i <= k < |node.children|
    requires SkippedArms(node, v, s.vars, i, k)
    ensures Arms(node, v, i, s, fuel) == Arms(node, v, k, s, fuel)
    decreases k - i
  {
    if i < k {
      ArmsSkipToMatch(node, v, i + 1, k, s, fuel);
      ArmSkipped(node, v, i, s, fuel);
    }
  }

  /** An arm whose value evaluates to something other than the selector passes on to the next arm. */
  lemma ArmSkipped(node: Node, v: int, i: nat, s: State, fuel: nat)
    requires i < |node.children| && |node.children[i].children| >= 1
    requires Evaluate(node.children[i].children[0], s.vars).Success?
    requires Evaluate(node.children[i].children[0], s.vars) != Success(v)
    ensures Arms(node, v, i, s, fuel) == Arms(node, v, i + 1, s, fuel)
  {
  }

  /** An arm whose value is the selector runs its block, or fails without one, and ends the SELECT CASE. */
  lemma ArmTaken(node: Node, v: int, i: nat, s: State, fuel: nat)
    requires i < |node.children| && |node.children[i].children| >= 1
    requires Evaluate(node.children[i].children[0], s.vars) == Success(v)
    ensures Arms(node, v, i, s, fuel) ==
              if |node.children[i].children| < 2 then Failure(MalformedNode)
              else Block(node.children[i].children[1], s, fuel)
  {
  }
}
