/** Rules for `six` and `six.moves`. */
module PySix {
  import opened Wrappers
  import opened Strings
  import opened FuncCall
  import opened Translator

  const SixAttributes: map<string, string> := map[
    "PY2" := "false",
    "PY3" := "true",
    "integer_types" := "[Int32]"
  ]

  const SixMovesRules := RuleSet("SixMoves", "six.moves", None, {"range"}, None)
  const SixRules := RuleSet("Six", "six", None, {"itervalues", "iteritems"}, Some(SixAttributes))

  /** `six.moves.range(...)` is `PyRange.range(...)` for any number of arguments. */
  function MovesRange(call: CallInfo): (r: Outcome)
    ensures r == Text("PyRange.range(" + Join(call.args, ", ") + ")")
  {
    Text("PyRange.range(" + Join(call.args, ", ") + ")")
  }

  /** A method on the first rendered argument, the receiver. */
  function OnReceiver(call: CallInfo, suffix: string): (r: Result<Outcome>)
    ensures r.Ok? <==> |call.args| > 0
    ensures r.Ok? ==> r.value == Text(call.args[0] + suffix)
  {
    if |call.args| == 0 then Err(RuntimeFault("IndexError")) else Ok(Text(call.args[0] + suffix))
  }

  /** `six.itervalues(d)` is `d.values`. */
  function IterValues(call: CallInfo): Result<Outcome>
  {
    OnReceiver(call, ".values")
  }

  /** `six.iteritems(d)` is `d.to_a`. */
  function IterItems(call: CallInfo): Result<Outcome>
  {
    OnReceiver(call, ".to_a")
  }

  lemma SixExamples(d: string, rest: seq<string>)
    ensures IterValues(CallInfo("six.itervalues", [d] + rest, [])) == Ok(Text(d + ".values"))
    ensures IterItems(CallInfo("six.iteritems", [d] + rest, [])) == Ok(Text(d + ".to_a"))
    ensures MovesRange(CallInfo("range", [], [])) == Text("PyRange.range()")
  {
    assert "PyRange.range(" + "" + ")" == "PyRange.range()";
  }
}
