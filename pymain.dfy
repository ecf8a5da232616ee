/**
 * Rules for builtins called without a module (`PythonMain`), for
 * `random`, and the two rule sets that declare no rules (`typing`,
 * `functools`).
 */
module PyMain {
  import opened Wrappers
  import opened Strings
  import opened Ast
  import opened FuncCall
  import opened Translator
  import opened RbHelpers

  const TypingRules := RuleSet("PythonTyping", "typing", None, {}, None)
  const FunctoolsRules := RuleSet("PythonFunctools", "functools", None, {}, None)
  const RandRules := RuleSet("PythonRand", "random", None, {"random"}, None)
  const MainRules := RuleSet("PythonMain", "", None,
    {"int", "float", "str", "range", "reduce", "map", "tuple", "list", "dict"}, None)

  /** `random.random()` is `Random.rand(...)`. */
  function Random(call: CallInfo): (r: Outcome)
    ensures r == Text("Random.rand(" + Join(call.args, ", ") + ")")
  {
    assert "Random" + "." + "rand" + "(" == "Random.rand(";
    Text(WrapClassMethod("Random", "rand", call))
  }

  /** Every rendered argument passed through `ope_filter`, in order. */
  function Filtered(args: seq<string>): (r: seq<string>)
    ensures |r| == |args|
    ensures forall i :: 0 <= i < |args| ==> r[i] == OpeFilter(args[i])
  {
    seq(|args|, i requires 0 <= i < |args| => OpeFilter(args[i]))
  }

  /**
   * The shared shape of `int`, `float` and `str`: a literal for no
   * argument, a conversion method (`conv`, with its dot) on the one filtered
   * argument. With more arguments the rule body fails on a name it never
   * defined.
   */
  function Conversion(call: CallInfo, zero: string, conv: string): (r: Result<Outcome>)
    ensures |call.nodeArgs| == 0 ==> r == Ok(Text(zero))
    ensures |call.nodeArgs| == 1 && |call.args| > 0 ==> r == Ok(Text(OpeFilter(call.args[0]) + conv))
    ensures |call.nodeArgs| == 1 && |call.args| == 0 ==> r.Err?
    ensures |call.nodeArgs| > 1 ==> r == Err(RuntimeFault("NameError"))
  {
    var filt := Filtered(call.args);
    if |call.nodeArgs| == 0 then Ok(Text(zero))
    else if |call.nodeArgs| == 1 then
      if |filt| == 0 then Err(RuntimeFault("IndexError")) else Ok(Text(filt[0] + conv))
    else Err(RuntimeFault("NameError"))
  }

  /** `int`: as `Conversion`, except that two arguments reach a `%` applied to a list, which raises. */
  function Int(call: CallInfo): (r: Result<Outcome>)
    ensures |call.nodeArgs| == 2 ==> r == Err(RuntimeFault("TypeError"))
    ensures |call.nodeArgs| != 2 ==> r == Conversion(call, "0", ".to_i")
  {
    if |call.nodeArgs| == 2 then Err(RuntimeFault("TypeError")) else Conversion(call, "0", ".to_i")
  }

  function Float(call: CallInfo): Result<Outcome>
  {
    Conversion(call, "0.0", ".to_f")
  }

  function Str(call: CallInfo): Result<Outcome>
  {
    Conversion(call, "\"\"", ".to_s")
  }

  /**
   * `range`: one argument is `N.times`; two and three are `PyRange.range`.
   * The arguments are unpacked from the rendered list, so an arity that
   * differs from the node count raises.
   */
  function Range(call: CallInfo): (r: Result<Outcome>)
    ensures |call.nodeArgs| == 1 && |call.args| > 0 ==> r == Ok(Text(OpeFilter(call.args[0]) + ".times"))
    ensures |call.nodeArgs| == 2 && |call.args| == 2 ==>
      r == Ok(Text("PyRange.range(" + OpeFilter(call.args[0]) + ", " + OpeFilter(call.args[1]) + ")"))
    ensures |call.nodeArgs| != 1 && |call.nodeArgs| != 2 && |call.args| == 3 ==>
      r == Ok(Text("PyRange.range(" + OpeFilter(call.args[0]) + ", " + OpeFilter(call.args[1]) + ", " + OpeFilter(call.args[2]) + ")"))
    ensures |call.nodeArgs| == 2 && |call.args| != 2 ==> r.Err?
    ensures |call.nodeArgs| != 1 && |call.nodeArgs| != 2 && |call.args| != 3 ==> r.Err?
  {
    var filt := Filtered(call.args);
    if |call.nodeArgs| == 1 then
      if |filt| == 0 then Err(RuntimeFault("IndexError")) else Ok(Text(filt[0] + ".times"))
    else if |call.nodeArgs| == 2 then
      if |filt| != 2 then Err(RuntimeFault("ValueError"))
      else Ok(Text("PyRange.range(" + filt[0] + ", " + filt[1] + ")"))
    else if |filt| != 3 then Err(RuntimeFault("ValueError"))
    else Ok(Text("PyRange.range(" + filt[0] + ", " + filt[1] + ", " + filt[2] + ")"))
  }

  /**
   * Whether the rule (`map` or `reduce`) wants the first argument rendered
   * as a block lambda: it inspects `node.args[0]`, which raises on a call
   * without arguments.
   */
  function FirstIsLambda(call: CallInfo): (r: Result<bool>)
    ensures r.Ok? <==> |call.nodeArgs| > 0
    ensures r.Ok? ==> (r.value <==> call.nodeArgs[0].Lambda?)
  {
    if |call.nodeArgs| == 0 then Err(RuntimeFault("IndexError")) else Ok(call.nodeArgs[0].Lambda?)
  }

  /**
   * `reduce(f, xs[, init])`: `xs.reduce[(init)] block`, the block being the
   * rendered lambda or `{ |*args| f(*args) }`.
   */
  function Reduce(call: CallInfo, block: Option<string>): (r: Result<Outcome>)
    ensures |call.args| >= 2 ==> r.Ok?
    ensures |call.args| < 2 ==> r.Err?
    ensures |call.args| == 2 && block.Some? ==> r == Ok(Text(call.args[1] + "." + call.funcstr + " " + block.value))
    ensures |call.args| > 2 && block.Some? ==>
      r == Ok(Text(call.args[1] + "." + call.funcstr + "(" + call.args[2] + ") " + block.value))
    ensures |call.args| == 2 && block.None? ==>
      r == Ok(Text(call.args[1] + "." + call.funcstr + " " + ("{ |*args| " + call.args[0] + "(*args) }")))
    ensures |call.args| > 2 && block.None? ==>
      r == Ok(Text(call.args[1] + "." + call.funcstr + "(" + call.args[2] + ") " + ("{ |*args| " + call.args[0] + "(*args) }")))
  {
    var cry := call.args;
    if block.None? && |cry| == 0 then Err(RuntimeFault("IndexError"))
    else
      var b := if block.Some? then block.value else "{ |*args| " + cry[0] + "(*args) }";
      if |cry| > 2 then Ok(Text(cry[1] + "." + call.funcstr + "(" + cry[2] + ") " + b))
      else if |cry| < 2 then Err(RuntimeFault("IndexError"))
      else Ok(Text(cry[1] + "." + call.funcstr + " " + b))
  }

  /** `map(f, xs)`: `xs.map block` for a lambda, `xs.map {|v| f(v)}` otherwise. */
  function Map(call: CallInfo, block: Option<string>): (r: Result<Outcome>)
    ensures r.Ok? <==> |call.args| >= 2
    ensures |call.args| >= 2 && block.Some? ==> r == Ok(Text(call.args[1] + "." + call.funcstr + " " + block.value))
    ensures |call.args| >= 2 && block.None? ==>
      r == Ok(Text(call.args[1] + "." + call.funcstr + " {|v| " + call.args[0] + "(v)}"))
  {
    var cry := call.args;
    if |cry| < 2 then Err(RuntimeFault("IndexError"))
    else if block.Some? then Ok(Text(cry[1] + "." + call.funcstr + " " + block.value))
    else Ok(Text(cry[1] + "." + call.funcstr + " {|v| " + cry[0] + "(v)}"))
  }

  /** `tuple(...)` / `list(...)` with arguments: split a string literal into characters, otherwise `to_a`. */
  function Sequence(call: CallInfo): (r: string)
    ensures |call.nodeArgs| == 1 && IsStr(call.nodeArgs[0]) ==> r == Join(call.args, " ") + ".split(\"\")"
    ensures !(|call.nodeArgs| == 1 && IsStr(call.nodeArgs[0])) ==> r == Join(call.args, " ") + ".to_a"
  {
    var s := Join(call.args, " ");
    if |call.nodeArgs| == 1 && IsStr(call.nodeArgs[0]) then s + ".split(\"\")" else s + ".to_a"
  }

  function Tuple(call: CallInfo): (r: Outcome)
    ensures |call.nodeArgs| == 0 ==> r == Text("Tuple.new()")
    ensures |call.nodeArgs| > 0 ==> r == Text(Sequence(call))
  {
    if |call.nodeArgs| == 0 then Text("Tuple.new()") else Text(Sequence(call))
  }

  /** `list()` asks the visitor for its empty-array literal. */
  function List(call: CallInfo): (r: Outcome)
    ensures |call.nodeArgs| == 0 ==> r == EmptyList
    ensures |call.nodeArgs| > 0 ==> r == Text(Sequence(call))
  {
    if |call.nodeArgs| == 0 then EmptyList else Text(Sequence(call))
  }

  /**
   * `dict()` asks for the empty-hash literal, `dict([...])` for the element
   * loop. A lone argument of another kind reaches a list the rule never
   * bound, and several arguments are a conversion error.
   */
  function Dict(call: CallInfo): (r: Result<Outcome>)
    ensures |call.nodeArgs| == 0 ==> r == Ok(EmptyHash)
    ensures r == Ok(DictOfList) <==> |call.nodeArgs| == 1 && call.nodeArgs[0].List?
    ensures |call.nodeArgs| == 1 && !call.nodeArgs[0].List? ==> r == Err(RuntimeFault("UnboundLocalError"))
    ensures |call.nodeArgs| > 1 ==> r == Err(ConvertError("dict in argument list Error"))
    ensures r.Ok? ==> r.value == EmptyHash || r.value == DictOfList
  {
    if |call.nodeArgs| == 0 then Ok(EmptyHash)
    else if |call.nodeArgs| == 1 then
      if call.nodeArgs[0].List? then Ok(DictOfList)
      else Err(RuntimeFault("UnboundLocalError"))
    else Err(ConvertError("dict in argument list Error"))
  }

  /** The documented conversions of `int`, `float` and `str`. */
  lemma ConversionExamples(x: string, n: Node)
    requires !HasOperator(x)
    ensures Int(CallInfo("int", [], [])) == Ok(Text("0"))
    ensures Int(CallInfo("int", [x], [n])) == Ok(Text(x + ".to_i"))
    ensures Float(CallInfo("float", [], [])) == Ok(Text("0.0"))
    ensures Float(CallInfo("float", [x], [n])) == Ok(Text(x + ".to_f"))
    ensures Str(CallInfo("str", [], [])) == Ok(Text("\"\""))
    ensures Str(CallInfo("str", [x], [n])) == Ok(Text(x + ".to_s"))
    ensures Float(CallInfo("float", [x, x], [n, n])) == Err(RuntimeFault("NameError"))
    ensures Int(CallInfo("int", [x, x], [n, n])) == Err(RuntimeFault("TypeError"))
  {
  }

  /** `range(3)` is `3.times`; `range(2, 5)` is `PyRange.range(2, 5)`. */
  lemma RangeExamples(a: string, b: string, c: string, na: Node, nb: Node, nc: Node)
    requires !HasOperator(a) && !HasOperator(b) && !HasOperator(c)
    ensures Range(CallInfo("range", [a], [na])) == Ok(Text(a + ".times"))
    ensures Range(CallInfo("range", [a, b], [na, nb])) == Ok(Text("PyRange.range(" + a + ", " + b + ")"))
    ensures Range(CallInfo("range", [a, b, c], [na, nb, nc])) == Ok(Text("PyRange.range(" + a + ", " + b + ", " + c + ")"))
  {
  }
}
