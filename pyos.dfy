/** Rules for `os` and `os.path`. */
module PyOs {
  import opened Wrappers
  import opened Strings
  import opened FuncCall
  import opened Translator

  const OsAttributes: map<string, string> := map["environ" := "PyOs.environ"]

  const OsRules := RuleSet("pyos.Os", "os", None, {"walk", "getenv"}, Some(OsAttributes))
  const OsPathRules := RuleSet("OsPath", "os.path", None, {"dirname", "basename", "join"}, None)

  /** `os.walk(...)` is `PyOs.walk(...)`. */
  function Walk(call: CallInfo): (r: Outcome)
    ensures r == Text("PyOs.walk(" + Join(call.args, ", ") + ")")
  {
    assert "PyOs" + "." + "walk" + "(" == "PyOs.walk(";
    Text(WrapClassMethod("PyOs", "walk", call))
  }

  /** `os.getenv(...)` is `PyOs.getenv(...)`. */
  function Getenv(call: CallInfo): (r: Outcome)
    ensures r == Text("PyOs.getenv(" + Join(call.args, ", ") + ")")
  {
    assert "PyOs" + "." + "getenv" + "(" == "PyOs.getenv(";
    Text(WrapClassMethod("PyOs", "getenv", call))
  }

  /** `os.path.dirname|basename|join(...)` is `File.<name>(...)`. */
  function FileMethod(name: string, call: CallInfo): (r: Outcome)
    ensures r == Text("File." + name + "(" + Join(call.args, ", ") + ")")
  {
    assert "File" + "." + name == "File." + name;
    Text(WrapClassMethod("File", name, call))
  }
}
