/** Rules for `sys`. */
module PySys {
  import opened Wrappers
  import opened Strings
  import opened FuncCall
  import opened Translator

  const SysAttributes: map<string, string> := map[
    "__stdin__" := "PySys.__stdin__",
    "__stdout__" := "PySys.__stdout__",
    "__stderr__" := "PySys.__stderr__",
    "stdin" := "PySys.stdin",
    "stdout" := "PySys.stdout",
    "stderr" := "PySys.stderr",
    "argv" := "PySys.argv"
  ]

  const SysRules := RuleSet("PySys", "sys", None, {"exit"}, Some(SysAttributes))

  /** Every renamed `sys` attribute becomes the same name on `PySys`. */
  lemma SysAttributesQualified(name: string)
    requires name in SysAttributes
    ensures SysAttributes[name] == "PySys." + name
  {
  }

  /** `sys.exit(...)` is `exit(...)`. */
  function Exit(call: CallInfo): (r: Outcome)
    ensures r == Text("exit(" + Join(call.args, ", ") + ")")
    ensures |call.args| == 0 ==> r == Text("exit()")
  {
    assert "exit(" + "" + ")" == "exit()";
    Text("exit(" + Join(call.args, ", ") + ")")
  }
}
