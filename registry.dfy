/**
 * The module-level registry: every translator class in the order Python
 * enumerates `CrystalTranslator.__subclasses__()` (the import order of the
 * rule modules), and the dispatch from a looked-up rule to its function.
 */
module Registry {
  import opened Wrappers
  import opened FuncCall
  import opened Translator
  import PyMain
  import PySix
  import PyOs
  import PySys
  import PyCopy
  import Numpy

  /** Class definition order: the main rules, then os, sys, six, copy and numpy. */
  const AllRuleSets: seq<RuleSet> := [
    PyMain.TypingRules, PyMain.FunctoolsRules, PyMain.RandRules, PyMain.MainRules,
    PyOs.OsRules, PyOs.OsPathRules,
    PySys.SysRules,
    PySix.SixMovesRules, PySix.SixRules,
    PyCopy.CopyRules,
    Numpy.NumpyRules, Numpy.NumpyOsRules
  ]

  /** The registry the translator module builds at import time. */
  predicate Standard(reg: TranslatorRegistry)
  {
    reg.klassOf == KlassTable(AllRuleSets) && reg.requireOf == RequireTable(AllRuleSets)
  }

  /** Whether the rule renders its first argument as a block lambda before running. */
  function WantsBlock(rule: Rule, call: CallInfo): (r: Result<bool>)
    ensures r.Ok? && r.value ==> |call.nodeArgs| > 0 && call.nodeArgs[0].Lambda?
  {
    if rule.owner == "PythonMain" && (rule.name == "reduce" || rule.name == "map")
    then PyMain.FirstIsLambda(call)
    else Ok(false)
  }

  /** Runs the rule; `block` is the rendered lambda when `WantsBlock` asked for one. */
  function Apply(rule: Rule, call: CallInfo, block: Option<string>): (r: Result<Outcome>)
    ensures r == Ok(DictOfList) ==> |call.nodeArgs| == 1 && call.nodeArgs[0].List?
  {
    match (rule.owner, rule.name)
    case ("PythonRand", "random") => Ok(PyMain.Random(call))
    case ("PythonMain", "int") => PyMain.Int(call)
    case ("PythonMain", "float") => PyMain.Float(call)
    case ("PythonMain", "str") => PyMain.Str(call)
    case ("PythonMain", "range") => PyMain.Range(call)
    case ("PythonMain", "reduce") => PyMain.Reduce(call, block)
    case ("PythonMain", "map") => PyMain.Map(call, block)
    case ("PythonMain", "tuple") => Ok(PyMain.Tuple(call))
    case ("PythonMain", "list") => Ok(PyMain.List(call))
    case ("PythonMain", "dict") => PyMain.Dict(call)
    case ("pyos.Os", "walk") => Ok(PyOs.Walk(call))
    case ("pyos.Os", "getenv") => Ok(PyOs.Getenv(call))
    case ("OsPath", _) => Ok(PyOs.FileMethod(rule.name, call))
    case ("PySys", "exit") => Ok(PySys.Exit(call))
    case ("SixMoves", "range") => Ok(PySix.MovesRange(call))
    case ("Six", "itervalues") => PySix.IterValues(call)
    case ("Six", "iteritems") => PySix.IterItems(call)
    case ("PythonCopy", "copy") => PyCopy.Copy(call)
    case ("Numpy", "arange") => Ok(Numpy.Stub(call))
    case ("numpy.Os", "walk") => Ok(Numpy.Stub(call))
    case _ => Err(RuntimeFault("AttributeError"))
  }

  /** The later `os` rule set (numpy's) is the one registered under `os`. */
  lemma OsIsNumpys()
    ensures "os" in KlassTable(AllRuleSets) && KlassTable(AllRuleSets)["os"] == Numpy.NumpyOsRules
    ensures "os" in RequireTable(AllRuleSets) && RequireTable(AllRuleSets)["os"] == None
  {
    LastRegistrationWins(AllRuleSets, 11);
  }

  /** `os.path` is its own key, so its rules survive the second `os`. */
  lemma OsPathSurvives()
    ensures "os.path" in KlassTable(AllRuleSets) && KlassTable(AllRuleSets)["os.path"] == PyOs.OsPathRules
  {
    LastRegistrationWins(AllRuleSets, 5);
  }

  /** Each other module name maps to its only rule set. */
  lemma RegisteredModules()
    ensures "" in KlassTable(AllRuleSets) && KlassTable(AllRuleSets)[""] == PyMain.MainRules
    ensures "random" in KlassTable(AllRuleSets) && KlassTable(AllRuleSets)["random"] == PyMain.RandRules
    ensures "typing" in KlassTable(AllRuleSets) && KlassTable(AllRuleSets)["typing"] == PyMain.TypingRules
    ensures "functools" in KlassTable(AllRuleSets) && KlassTable(AllRuleSets)["functools"] == PyMain.FunctoolsRules
    ensures "sys" in KlassTable(AllRuleSets) && KlassTable(AllRuleSets)["sys"] == PySys.SysRules
    ensures "six.moves" in KlassTable(AllRuleSets) && KlassTable(AllRuleSets)["six.moves"] == PySix.SixMovesRules
    ensures "six" in KlassTable(AllRuleSets) && KlassTable(AllRuleSets)["six"] == PySix.SixRules
    ensures "copy" in KlassTable(AllRuleSets) && KlassTable(AllRuleSets)["copy"] == PyCopy.CopyRules
    ensures "numpy" in KlassTable(AllRuleSets) && KlassTable(AllRuleSets)["numpy"] == Numpy.NumpyRules
    ensures "numpy" in RequireTable(AllRuleSets) && RequireTable(AllRuleSets)["numpy"] == Some("num")
  {
    LastRegistrationWins(AllRuleSets, 0);
    LastRegistrationWins(AllRuleSets, 1);
    LastRegistrationWins(AllRuleSets, 2);
    LastRegistrationWins(AllRuleSets, 3);
    LastRegistrationWins(AllRuleSets, 6);
    LastRegistrationWins(AllRuleSets, 7);
    LastRegistrationWins(AllRuleSets, 8);
    LastRegistrationWins(AllRuleSets, 9);
    LastRegistrationWins(AllRuleSets, 10);
  }

  /**
   * Through the registry: `os.walk` finds numpy's stub, `os.getenv` and
   * `os.environ` find nothing any more, `numpy` requires `num`, and an
   * unregistered module requires itself.
   */
  lemma StandardLookups(reg: TranslatorRegistry)
    requires Standard(reg)
    ensures reg.FuncLookup("os", "walk") == Some(Rule("numpy.Os", "walk"))
    ensures reg.FuncLookup("os", "getenv") == None
    ensures reg.AttrLookup("os", "environ") == None
    ensures reg.FuncLookup("os.path", "join") == Some(Rule("OsPath", "join"))
    ensures reg.FuncLookup("numpy", "arange") == Some(Rule("Numpy", "arange"))
    ensures reg.FuncLookup("numpy", "array") == None
    ensures reg.RequireLookup("numpy") == Some("num")
    ensures reg.RequireLookupOrNone("os") == None
    ensures reg.RequireLookup("os") == None
    ensures reg.AttrLookup("six", "PY3") == Some("true")
    ensures reg.AttrLookup("six", "PY4") == None
    ensures reg.AttrLookup("copy", "copy") == None
  {
    OsIsNumpys();
    OsPathSurvives();
    RegisteredModules();
    TableDomain(AllRuleSets, "os");
  }

  /** A module nobody claims: no rule, no require of its own, and `require_lookup` falls back to its name. */
  lemma UnregisteredModule(reg: TranslatorRegistry, mod: string, name: string)
    requires Standard(reg)
    requires forall i :: 0 <= i < |AllRuleSets| ==> AllRuleSets[i].moduleName != mod
    ensures reg.FuncLookup(mod, name) == None
    ensures reg.RequireLookupOrNone(mod) == None
    ensures reg.RequireLookup(mod) == Some(mod)
  {
    TableDomain(AllRuleSets, mod);
  }
}
