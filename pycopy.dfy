/** Rules for `copy`. */
module PyCopy {
  import opened Wrappers
  import opened FuncCall
  import opened Translator

  const CopyRules := RuleSet("PythonCopy", "copy", None, {"copy"}, None)

  /** `copy.copy(x, ...)` is `x.dup`; further arguments are dropped. */
  function Copy(call: CallInfo): (r: Result<Outcome>)
    ensures r.Ok? <==> |call.args| > 0
    ensures r.Ok? ==> r.value == Text(call.args[0] + ".dup")
  {
    if |call.args| == 0 then Err(RuntimeFault("IndexError")) else Ok(Text(call.args[0] + ".dup"))
  }

  lemma CopyIgnoresRest(x: string, rest: seq<string>, nodes: seq<Ast.Node>)
    ensures Copy(CallInfo("copy.copy", [x] + rest, nodes)) == Copy(CallInfo("copy.copy", [x], nodes))
  {
  }
}
