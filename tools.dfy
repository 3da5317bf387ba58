/** The tool registry and the safe calculator (app/tools.py). `ast.parse` and Python's
    float and complex arithmetic are outside the model: the caller passes them in.
    Integer arithmetic (bools count as ints) is modelled exactly. */
module Tools {
  import opened Wrappers
  import PyText

  // ---------------------------------------------------------------------------
  // Expression trees

  /** The binary operator classes of Python's `ast`. */
  datatype BinOperator = Add | Sub | Mult | Div | Pow | Mod | FloorDiv
                       | MatMult | LShift | RShift | BitOr | BitXor | BitAnd

  /** The unary operator classes of Python's `ast`. */
  datatype UnaryOperator = USub | UAdd | Not | Invert

  /** A Python number. Floats and complex numbers are kept as the text `str` gives them. */
  datatype Value = Int(i: int) | Bool(b: bool) | Float(repr: string) | Complex(repr: string)

  /** The payload of an `ast.Constant`: a number, or any other literal (str, bytes,
      None, Ellipsis) named by its kind. */
  datatype Literal = Number(v: Value) | NonNumeric(kind: string)

  /** The body of an `ast.Expression`. `Other` stands for every node class the
      evaluator does not handle (names, calls, comparisons, ...). */
  datatype Node =
    | Constant(lit: Literal)
    | BinOp(left: Node, op: BinOperator, right: Node)
    | UnaryOp(uop: UnaryOperator, operand: Node)
    | Other(kind: string)

  /** `type(op) in _ALLOWED` for a binary operator. */
  predicate BinAllowed(op: BinOperator) {
    op in {Add, Sub, Mult, Div, Pow, Mod, FloorDiv}
  }

  /** `type(op) in _ALLOWED` for a unary operator: of the unary classes only `USub` is listed. */
  predicate UnaryAllowed(op: UnaryOperator) {
    op == USub
  }

  // ---------------------------------------------------------------------------
  // Arithmetic

  /** Values Python treats as `int`: ints and bools. */
  predicate Integral(v: Value) {
    v.Int? || v.Bool?
  }

  function AsInt(v: Value): int
    requires Integral(v)
  {
    if v.Int? then v.i else if v.b then 1 else 0
  }

  /** Python's `//` on ints: rounds toward minus infinity. */
  function FloorDivInt(a: int, b: int): int
    requires b != 0
  {
    if b > 0 then a / b else (-a) / (-b)
  }

  /** Python's `%` on ints: the remainder takes the sign of the divisor. */
  function ModInt(a: int, b: int): int
    requires b != 0
  {
    a - b * FloorDivInt(a, b)
  }

  /** The operations the model leaves to Python: everything on floats and complex
      numbers, true division, `**`, and division by zero (with its error message). */
  datatype Arithmetic = Arithmetic(
    binary: (BinOperator, Value, Value) -> Result<Value, string>,
    negate: Value -> Value)

  /** `_ALLOWED[type(op)](a, b)` for an allowed operator. */
  function ApplyBinary(op: BinOperator, a: Value, b: Value, arith: Arithmetic): Result<Value, string> {
    if Integral(a) && Integral(b) && op in {Add, Sub, Mult} then
      var x, y := AsInt(a), AsInt(b);
      Ok(Int(if op == Add then x + y else if op == Sub then x - y else x * y))
    else if Integral(a) && Integral(b) && op in {FloorDiv, Mod} && AsInt(b) != 0 then
      Ok(Int(if op == FloorDiv then FloorDivInt(AsInt(a), AsInt(b)) else ModInt(AsInt(a), AsInt(b))))
    else arith.binary(op, a, b)
  }

  /** `operator.neg(v)`. */
  function Negate(v: Value, arith: Arithmetic): Value {
    if Integral(v) then Int(-AsInt(v)) else arith.negate(v)
  }

  // ---------------------------------------------------------------------------
  // The evaluator

  const OperationNotAllowed: string := "Operation not allowed"
  const UnaryNotAllowed: string := "Unary operation not allowed"
  const Unsupported: string := "Unsupported expression"

  /** `_eval(node)`: the value, or the message of the exception it raises. CPython's
      recursion limit, which stops very deep trees, is not part of this definition. */
  function Eval(n: Node, arith: Arithmetic): (r: Result<Value, string>)
    ensures r.Ok? ==> Faults(n) == []
  {
    match n
    case Constant(lit) =>
      if lit.Number? then Ok(lit.v) else Err(Unsupported)
    case BinOp(l, op, r) =>
      (match Eval(l, arith)
       case Err(e) => Err(e)
       case Ok(a) =>
         match Eval(r, arith)
         case Err(e) => Err(e)
         case Ok(b) =>
           if !BinAllowed(op) then Err(OperationNotAllowed) else ApplyBinary(op, a, b, arith))
    case UnaryOp(op, x) =>
      if !UnaryAllowed(op) then Err(UnaryNotAllowed)
      else
        (match Eval(x, arith)
         case Err(e) => Err(e)
         case Ok(v) => Ok(Negate(v, arith)))
    case Other(_) => Err(Unsupported)
  }

  /** The refusals of the evaluator in the order it meets them: a binary node's left
      operand, then its right operand, then its operator; a unary node's operator
      before its operand; a node of any other kind. */
  function Faults(n: Node): seq<string> {
    match n
    case Constant(lit) => if lit.Number? then [] else [Unsupported]
    case BinOp(l, op, r) => Faults(l) + Faults(r) + (if BinAllowed(op) then [] else [OperationNotAllowed])
    case UnaryOp(op, x) => if UnaryAllowed(op) then Faults(x) else [UnaryNotAllowed]
    case Other(_) => [Unsupported]
  }

  /** The mathematical value of an expression built from integer (or bool) literals
      with `+`, `-`, `*`, `//`, `%` (non-zero divisor) and unary minus; `None` for any
      other expression. */
  function IntMeaning(n: Node): Option<int> {
    match n
    case Constant(lit) =>
      if lit.Number? && Integral(lit.v) then Some(AsInt(lit.v)) else None
    case BinOp(l, op, r) =>
      (match (IntMeaning(l), IntMeaning(r))
       case (Some(x), Some(y)) =>
         if op == Add then Some(x + y)
         else if op == Sub then Some(x - y)
         else if op == Mult then Some(x * y)
         else if op == FloorDiv && y != 0 then Some(FloorDivInt(x, y))
         else if op == Mod && y != 0 then Some(ModInt(x, y))
         else None
       case _ => None)
    case UnaryOp(op, x) =>
      if op == USub && IntMeaning(x).Some? then Some(-IntMeaning(x).value) else None
    case Other(_) => None
  }

  // ---------------------------------------------------------------------------
  // The calculator and the registry

  /** `str(v)`. */
  function Str(v: Value): string {
    match v
    case Int(i) => PyText.IntToString(i)
    case Bool(b) => if b then "True" else "False"
    case Float(s) => s
    case Complex(s) => s
  }

  /** `ast.parse(expr, mode="eval").body`, or the message of its `SyntaxError`. */
  type Parser = string -> Result<Node, string>

  /** `calculator(expr)`: never raises; every failure becomes a "Calculator error" reply. */
  function Calculator(expr: string, parse: Parser, arith: Arithmetic): (r: string)
    ensures (parse(expr).Ok? && Eval(parse(expr).value, arith).Ok?)
        ==> r == expr + " = " + Str(Eval(parse(expr).value, arith).value)
    ensures parse(expr).Err? ==> r == "Calculator error: " + parse(expr).error
    ensures parse(expr).Ok? && Eval(parse(expr).value, arith).Err?
        ==> r == "Calculator error: " + Eval(parse(expr).value, arith).error
  {
    match parse(expr)
    case Err(e) => "Calculator error: " + e
    case Ok(node) =>
      match Eval(node, arith)
      case Err(e) => "Calculator error: " + e
      case Ok(v) => expr + " = " + Str(v)
  }

  /** The registered tools. */
  datatype Tool = CalculatorTool | WebSearchTool

  /** `web_search(query)`: a network search, outside the model. */
  type WebSearch = string -> string

  /** What the tools need from the world. */
  datatype Environment = Environment(parse: Parser, arith: Arithmetic, search: WebSearch)

  /** `TOOLS.get(name)`. */
  function Lookup(name: string): (t: Option<Tool>)
    ensures t == Some(CalculatorTool) <==> name == "calculator"
    ensures t == Some(WebSearchTool) <==> name == "web_search"
  {
    if name == "calculator" then Some(CalculatorTool)
    else if name == "web_search" then Some(WebSearchTool)
    else None
  }

  /** Python's string order: code point by code point, a proper prefix first. */
  predicate Precedes(a: string, b: string) {
    if a == [] then b != []
    else if b == [] then false
    else if a[0] != b[0] then a[0] < b[0]
    else Precedes(a[1..], b[1..])
  }

  predicate StrictlySorted(names: seq<string>) {
    forall i, j :: 0 <= i < j < |names| ==> Precedes(names[i], names[j])
  }

  /** `list_tools()`: `sorted(TOOLS.keys())`. */
  function ListTools(): (names: seq<string>)
    ensures StrictlySorted(names)
    ensures forall name :: name in names <==> Lookup(name).Some?
  {
    ["calculator", "web_search"]
  }

  /** `run_tool(name, tool_input)`. */
  function RunTool(name: string, input: string, env: Environment): (r: string)
    ensures Lookup(name).None? ==> r == "Unknown tool: " + name
  {
    match Lookup(name)
    case None => "Unknown tool: " + name
    case Some(CalculatorTool) => Calculator(input, env.parse, env.arith)
    case Some(WebSearchTool) => env.search(input)
  }

  /** The parameter names of `run_tool`. */
  const RunToolParameters: set<string> := {"name", "tool_input"}

  /** A call `run_tool(name, input, **{k: ... for k in keywords})`, both arguments
      positional. Python binds the keywords in order before the body runs, and every
      one of them is refused with a `TypeError`: a name that is no parameter is an
      unexpected keyword, and a parameter name was already bound by position. The
      tool is reached only when there are no keywords. */
  function CallRunTool(name: string, input: string, keywords: seq<string>, env: Environment): (r: Result<string, string>)
    ensures keywords != [] <==> r.Err?
    ensures r.Ok? ==> r.value == RunTool(name, input, env)
  {
    if keywords == [] then Ok(RunTool(name, input, env))
    else if keywords[0] !in RunToolParameters then
      Err("run_tool() got an unexpected keyword argument '" + keywords[0] + "'")
    else
      Err("run_tool() got multiple values for argument '" + keywords[0] + "'")
  }

  // ---------------------------------------------------------------------------
  // Lemmas

  /** `//` and `%` agree with Python: q*b + r == a, and r lies between 0 and b,
      on the side of b's sign. */
  lemma FloorDivMod(a: int, b: int)
    requires b != 0
    ensures b * FloorDivInt(a, b) + ModInt(a, b) == a
    ensures b > 0 ==> 0 <= ModInt(a, b) < b
    ensures b < 0 ==> b < ModInt(a, b) <= 0
  {
    if b < 0 {
      var q := (-a) / (-b);
      assert -a == (-b) * q + (-a) % (-b);
    }
  }

  /** A numeric constant evaluates to itself; a bool passes as a number. */
  lemma NumericConstants(v: Value, arith: Arithmetic)
    ensures Eval(Constant(Number(v)), arith) == Ok(v)
    ensures Eval(Constant(Number(Bool(true))), arith) == Ok(Bool(true))
  {
  }

  /** When the arithmetic itself never raises, the evaluator fails exactly on trees that
      contain a refused node, and with the message of the first one it meets; the
      arithmetic oracle then never decides anything but the value. */
  lemma {:induction false} EvalFailsAtFirstFault(n: Node, arith: Arithmetic)
    requires forall op, a, b :: arith.binary(op, a, b).Ok?
    ensures Eval(n, arith).Err? <==> Faults(n) != []
    ensures Eval(n, arith).Err? ==> Eval(n, arith).error == Faults(n)[0]
  {
    match n
    case Constant(_) =>
    case Other(_) =>
    case BinOp(l, op, r) =>
      EvalFailsAtFirstFault(l, arith);
      EvalFailsAtFirstFault(r, arith);
      if Faults(l) != [] {
        assert Faults(n)[0] == Faults(l)[0];
      } else if Faults(r) != [] {
        assert Faults(n) == Faults(r) + (if BinAllowed(op) then [] else [OperationNotAllowed]);
      } else {
        var a, b := Eval(l, arith).value, Eval(r, arith).value;
        assert arith.binary(op, a, b).Ok?;
      }
    case UnaryOp(op, x) =>
      if UnaryAllowed(op) {
        EvalFailsAtFirstFault(x, arith);
      }
  }

  /** Integer expressions are computed exactly, whatever Python's float arithmetic does. */
  lemma {:induction false} EvalIntegerExact(n: Node, arith: Arithmetic)
    requires IntMeaning(n).Some?
    ensures Eval(n, arith).Ok? && Integral(Eval(n, arith).value)
    ensures AsInt(Eval(n, arith).value) == IntMeaning(n).value
  {
    match n
    case Constant(_) =>
    case BinOp(l, op, r) =>
      EvalIntegerExact(l, arith);
      EvalIntegerExact(r, arith);
    case UnaryOp(op, x) =>
      EvalIntegerExact(x, arith);
  }

  /** A unary plus is refused before its operand is looked at, and a disallowed binary
      operator only after both operands evaluate. */
  lemma RefusalOrder(x: Node, y: Node, arith: Arithmetic)
    ensures Eval(UnaryOp(UAdd, x), arith) == Err(UnaryNotAllowed)
    ensures Eval(x, arith).Err? ==> Eval(BinOp(x, BitOr, y), arith) == Eval(x, arith)
    ensures Eval(x, arith).Ok? && Eval(y, arith).Err? ==> Eval(BinOp(x, BitOr, y), arith) == Eval(y, arith)
    ensures Eval(x, arith).Ok? && Eval(y, arith).Ok? ==> Eval(BinOp(x, BitOr, y), arith) == Err(OperationNotAllowed)
  {
  }

  /** Integer replies of the calculator, given how Python parses the input. */
  lemma CalculatorIntegerReplies(parse: Parser, arith: Arithmetic)
    requires parse("2+2") == Ok(BinOp(Constant(Number(Int(2))), Add, Constant(Number(Int(2)))))
    requires parse("-7//2") == Ok(BinOp(UnaryOp(USub, Constant(Number(Int(7)))), FloorDiv, Constant(Number(Int(2)))))
    ensures Calculator("2+2", parse, arith) == "2+2 = 4"
    ensures Calculator("-7//2", parse, arith) == "-7//2 = -4"
  {
    var two, seven := Constant(Number(Int(2))), Constant(Number(Int(7)));
    assert Eval(BinOp(two, Add, two), arith) == Ok(Int(4));
    assert Eval(UnaryOp(USub, seven), arith) == Ok(Int(-7));
    assert FloorDivInt(-7, 2) == -4;
    assert Eval(BinOp(UnaryOp(USub, seven), FloorDiv, two), arith) == Ok(Int(-4));
    assert PyText.IntToString(-4) == "-4";
    assert PyText.IntToString(4) == "4";
  }

  /** A bool operand counts as the int 1. */
  lemma CalculatorBoolOperand(parse: Parser, arith: Arithmetic)
    requires parse("True+1") == Ok(BinOp(Constant(Number(Bool(true))), Add, Constant(Number(Int(1)))))
    ensures Calculator("True+1", parse, arith) == "True+1 = 2"
  {
    assert Eval(BinOp(Constant(Number(Bool(true))), Add, Constant(Number(Int(1)))), arith) == Ok(Int(2));
    assert PyText.IntToString(2) == "2";
  }

  /** Refused inputs become error replies. */
  lemma CalculatorRefusals(parse: Parser, arith: Arithmetic)
    requires parse("+2") == Ok(UnaryOp(UAdd, Constant(Number(Int(2)))))
    requires parse("'a'") == Ok(Constant(NonNumeric("str")))
    ensures Calculator("+2", parse, arith) == "Calculator error: Unary operation not allowed"
    ensures Calculator("'a'", parse, arith) == "Calculator error: Unsupported expression"
  {
  }

  /** An unknown name is answered without touching any tool: the reply does not depend
      on the environment. */
  lemma RunToolUnknown(name: string, input: string, env1: Environment, env2: Environment)
    requires Lookup(name).None?
    ensures RunTool(name, input, env1) == RunTool(name, input, env2) == "Unknown tool: " + name
  {
  }

  /** A registered name runs that tool on the input. */
  lemma RunToolKnown(input: string, env: Environment)
    ensures RunTool("calculator", input, env) == Calculator(input, env.parse, env.arith)
    ensures RunTool("web_search", input, env) == env.search(input)
  {
  }

  /** `kb_search`, which uploads add to a profile's tool list, is not registered. */
  lemma KbSearchIsNotRegistered(input: string, env: Environment)
    ensures "kb_search" !in ListTools()
    ensures RunTool("kb_search", input, env) == "Unknown tool: kb_search"
  {
  }

  /** The chat endpoint's call `run_tool(name, input, gem_id=...)` fails for every tool. */
  lemma GemIdKeywordRejected(name: string, input: string, env: Environment)
    ensures CallRunTool(name, input, ["gem_id"], env)
         == Err("run_tool() got an unexpected keyword argument 'gem_id'")
  {
    assert "gem_id" !in RunToolParameters;
    assert CallRunTool(name, input, ["gem_id"], env)
        == Err("run_tool() got an unexpected keyword argument '" + "gem_id" + "'");
    assert "run_tool() got an unexpected keyword argument '" + "gem_id" + "'"
        == "run_tool() got an unexpected keyword argument 'gem_id'";
  }

  /** Naming a parameter again by keyword fails too: it is already bound by position. */
  lemma ParameterKeywordRejected(name: string, input: string, env: Environment)
    ensures CallRunTool(name, input, ["tool_input"], env)
         == Err("run_tool() got multiple values for argument 'tool_input'")
  {
    assert "tool_input" in RunToolParameters;
    assert CallRunTool(name, input, ["tool_input"], env)
        == Err("run_tool() got multiple values for argument '" + "tool_input" + "'");
    assert "run_tool() got multiple values for argument '" + "tool_input" + "'"
        == "run_tool() got multiple values for argument 'tool_input'";
  }
}
