/** The `numpy` rule set and the second rule set that claims `os`. */
module Numpy {
  import opened Wrappers
  import opened FuncCall
  import opened Translator

  const NumpyRules := RuleSet("Numpy", "numpy", Some("num"), {"arange"}, None)
  /** Declared after the `os` rule set of the `os` rules module, so it replaces it in the registry. */
  const NumpyOsRules := RuleSet("numpy.Os", "os", None, {"walk"}, None)

  /** `arange` and this `walk` have empty bodies: the rule yields no text. */
  function Stub(call: CallInfo): (r: Outcome)
    ensures r == NoText
  {
    NoText
  }
}
