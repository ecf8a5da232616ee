/**
 * The translation registry: rule sets keyed by the Python module they
 * translate, with the Crystal `require` each one needs.
 */
module Translator {
  import opened Wrappers

  /**
   * One translator class: an identifier for the class, the Python module
   * it claims, its Crystal require, the names of the rules it defines,
   * and its attribute rename map when it declares one.
   */
  datatype RuleSet = RuleSet(
    id: string,
    moduleName: string,
    require: Option<string>,
    members: set<string>,
    attributeMap: Option<map<string, string>>)

  /** A looked-up rule: the rule set it belongs to and its name. */
  datatype Rule = Rule(owner: string, name: string)

  /** The class table after registering `subs` in order; a later entry replaces an earlier one. */
  function KlassTable(subs: seq<RuleSet>): map<string, RuleSet>
    decreases |subs|
  {
    if |subs| == 0 then map[]
    else KlassTable(subs[..|subs| - 1])[subs[|subs| - 1].moduleName := subs[|subs| - 1]]
  }

  function RequireTable(subs: seq<RuleSet>): map<string, Option<string>>
    decreases |subs|
  {
    if |subs| == 0 then map[]
    else RequireTable(subs[..|subs| - 1])[subs[|subs| - 1].moduleName := subs[|subs| - 1].require]
  }

  /** Exactly the claimed module names are keys of both tables. */
  lemma {:induction false} TableDomain(subs: seq<RuleSet>, mod: string)
    ensures mod in KlassTable(subs) <==> exists i :: 0 <= i < |subs| && subs[i].moduleName == mod
    ensures mod in RequireTable(subs) <==> mod in KlassTable(subs)
    decreases |subs|
  {
    if |subs| > 0 {
      var init := subs[..|subs| - 1];
      TableDomain(init, mod);
      if mod in KlassTable(subs) && mod != subs[|subs| - 1].moduleName {
        var i :| 0 <= i < |init| && init[i].moduleName == mod;
        assert subs[i] == init[i];
      }
      if exists i :: 0 <= i < |subs| && subs[i].moduleName == mod {
        var i :| 0 <= i < |subs| && subs[i].moduleName == mod;
        if i < |init| {
          assert init[i] == subs[i];
        }
      }
    }
  }

  /**
   * The entry for a module name is the LAST rule set that claims it, in
   * both tables.
   */
  lemma {:induction false} LastRegistrationWins(subs: seq<RuleSet>, i: nat)
    requires i < |subs|
    requires forall j :: i < j < |subs| ==> subs[j].moduleName != subs[i].moduleName
    ensures subs[i].moduleName in KlassTable(subs) && KlassTable(subs)[subs[i].moduleName] == subs[i]
    ensures subs[i].moduleName in RequireTable(subs) && RequireTable(subs)[subs[i].moduleName] == subs[i].require
    decreases |subs|
  {
    if i < |subs| - 1 {
      var init := subs[..|subs| - 1];
      assert init[i] == subs[i];
      forall j | i < j < |init| ensures init[j].moduleName != init[i].moduleName {
        assert init[j] == subs[j];
      }
      LastRegistrationWins(init, i);
    }
  }

  class TranslatorRegistry {
    /** Python module name to rule set (`map_pymod_to_klass`). */
    const klassOf: map<string, RuleSet>
    /** Python module name to Crystal require (`map_pymod_to_require`). */
    const requireOf: map<string, Option<string>>

    /** Registers the translator classes in enumeration order. */
    constructor (subclasses: seq<RuleSet>)
      ensures klassOf == KlassTable(subclasses)
      ensures requireOf == RequireTable(subclasses)
    {
      var k: map<string, RuleSet> := map[];
      var r: map<string, Option<string>> := map[];
      var i := 0;
      while i < |subclasses|
        invariant 0 <= i <= |subclasses|
        invariant k == KlassTable(subclasses[..i])
        invariant r == RequireTable(subclasses[..i])
      {
        var obj := subclasses[i];
        assert subclasses[..i + 1][..i] == subclasses[..i];
        k := k[obj.moduleName := obj];
        r := r[obj.moduleName := obj.require];
        i := i + 1;
      }
      assert subclasses[..i] == subclasses;
      klassOf := k;
      requireOf := r;
    }

    /** `func_lookup`: the named rule of the module's rule set, if it defines one. */
    function FuncLookup(modName: string, attrName: string): (r: Option<Rule>)
      ensures r.Some? <==> modName in klassOf && attrName in klassOf[modName].members
      ensures r.Some? ==> r.value == Rule(klassOf[modName].id, attrName)
    {
      if modName in klassOf && attrName in klassOf[modName].members
      then Some(Rule(klassOf[modName].id, attrName))
      else None
    }

    /** `attr_lookup`: the rename of an attribute, if the rule set has a map holding it. */
    function AttrLookup(modName: string, attrName: string): (r: Option<string>)
      ensures r.Some? <==>
        modName in klassOf && klassOf[modName].attributeMap.Some? && attrName in klassOf[modName].attributeMap.value
      ensures r.Some? ==> r.value == klassOf[modName].attributeMap.value[attrName]
    {
      if modName !in klassOf then None
      else match klassOf[modName].attributeMap
        case None => None
        case Some(m) => if attrName in m then Some(m[attrName]) else None
    }

    /** `require_lookup_or_none`. */
    function RequireLookupOrNone(modName: string): (r: Option<string>)
      ensures modName !in requireOf ==> r.None?
      ensures modName in requireOf ==> r == requireOf[modName]
    {
      if modName in requireOf then requireOf[modName] else None
    }

    /** `require_lookup`: an unregistered module requires itself. */
    function RequireLookup(modName: string): (r: Option<string>)
      ensures modName !in requireOf ==> r == Some(modName)
      ensures modName in requireOf ==> r == RequireLookupOrNone(modName)
    {
      if modName in requireOf then requireOf[modName] else Some(modName)
    }
  }
}
