/**
 * Expression visiting of the translator class `RB`, as a function of the
 * visitor tables it reads (`Env`) and the fields it updates while
 * visiting an expression (`St`). An error result ends the conversion, so
 * it carries no state.
 */
module Lowering {
  import opened Wrappers
  import opened Strings
  import opened Ast
  import opened RbHelpers
  import opened FuncCall
  import opened Translator
  import Registry
  import PyMain
  import CrystalTypes
  import Formatter

  /**
   * The `RB` tables an expression visit reads and never changes, and the
   * rule functions the registered classes provide (`getattr(klass, name)`),
   * which are `Registry.Apply` for the standard registry.
   */
  datatype Env = Env(
    mode: Mode,
    className: Option<string>,
    rclassName: Option<string>,
    classNames: set<string>,
    basesOf: map<string, seq<string>>,
    functionStack: seq<string>,
    functionArgs: seq<string>,
    scope: seq<string>,
    functions: map<string, seq<Slot>>,
    selfFunctions: seq<string>,
    classFunctions: seq<string>,
    classVariables: seq<string>,
    classesFunctions: map<string, seq<string>>,
    classesSelfFunctions: map<string, seq<string>>,
    classesClassFunctionsArgs: map<string, map<string, seq<Slot>>>,
    classesSelfFunctionsArgs: map<string, map<string, seq<Slot>>>,
    lambdaFunctions: seq<string>,
    moduleAliases: map<string, string>,
    rules: (Rule, CallInfo, Option<string>) -> Result<Outcome>)

  /**
   * The `RB` fields an expression visit updates: the result status, the
   * tuple rendering mode, the "visiting a callee" flag, the argument count
   * of the call being rendered and the string-as-symbol flag.
   */
  datatype St = St(severity: Severity, tupleType: string, call: bool, funcArgsLen: nat, symbol: bool)

  datatype Out = Out(text: string, st: St)
  datatype Outs = Outs(texts: seq<string>, st: St)
  datatype SliceParts = SliceParts(lower: Option<string>, upper: Option<string>, step: Option<string>, st: St)

  /** `maybewarn`: raise the status to a warning in warning mode only. */
  function Warn(env: Env, st: St): (r: St)
    ensures r.severity >= st.severity
    ensures r == st.(severity := r.severity)
    ensures env.mode == Warning ==> r.severity == Raise(st.severity, IncludeWarning)
    ensures env.mode != Warning ==> r == st
  {
    if env.mode == Warning then st.(severity := Raise(st.severity, IncludeWarning)) else st
  }

  /** `visit_Name`: the callee table while visiting a callee, the name table otherwise, then the exception table. */
  function NameText(id: string, call: bool): string
  {
    var nid := if call then (if id in FuncNameMap then FuncNameMap[id] else id)
               else (if id in NameMap then NameMap[id] else id);
    if nid in ExceptionMap then ExceptionMap[nid] else nid
  }

  /** `repr` of an integer. */
  function IntText(i: int): string
  {
    if i < 0 then "-" + NatToString(-i) else NatToString(i)
  }

  /** `visit_Constant`; string contents are taken as they are (no escaping). */
  function ConstantText(c: Const, symbol: bool): (r: Result<string>)
    ensures r.Err? <==> c.CBytes?
    ensures c.CInt? ==> r == Ok(IntText(c.i))
    ensures c.CFloat? || c.CComplex? ==> r == Ok(c.literal)
  {
    match c
    case CBool(_) => Ok(NameConstant(c))
    case CNone => Ok(NameConstant(c))
    case CStr(s) => Ok(if symbol then ":" + s else "\"" + s + "\"")
    case CBytes(_) => Err(NotImplemented("bytes literal"))
    case CEllipsis => Ok("false")
    case CInt(i) => Ok(IntText(i))
    case CFloat(lit) => Ok(lit)
    case CComplex(lit) => Ok(lit)
  }

  /** A string is a symbol `:s`, or else `s` between double quotes, with its characters kept. */
  lemma StringConstantText(s: string, symbol: bool)
    ensures var r := ConstantText(CStr(s), symbol).value;
      (symbol ==> |r| == |s| + 1 && r[0] == ':' && r[1..] == s)
      && (!symbol ==> |r| == |s| + 2 && r[0] == '"' == r[|r| - 1] && r[1..|r| - 1] == s)
  {
  }

  /** `visit_arguments`: the parameter names, then `*vararg`. */
  function ParamsText(params: Arguments): string
  {
    var names := seq(|params.args|, i requires 0 <= i < |params.args| => params.args[i].name);
    Join(names + (if params.vararg.Some? then ["*" + params.vararg.value.name] else []), ", ")
  }

  function Dealias(env: Env, mod: string): string
  {
    if mod in env.moduleAliases then env.moduleAliases[mod] else mod
  }

  /** The rename `visit_Attribute` applies after `attribute_map`, chosen by the argument count of the call. */
  function ArgFormRename(attr: string, funcArgsLen: nat): string
  {
    if funcArgsLen == 0 then (if attr in AttributeNotArg then AttributeNotArg[attr] else attr)
    else (if attr in AttributeWithArg then AttributeWithArg[attr] else attr)
  }

  function MethodRename(attr: string): string
  {
    if attr in AttributeMap then AttributeMap[attr] else attr
  }

  /** Some recorded ancestor defines `attr` as an instance method. */
  predicate Inherits(env: Env, bases: seq<string>, attr: string)
  {
    exists i :: 0 <= i < |bases| && bases[i] in env.classesSelfFunctions && attr in env.classesSelfFunctions[bases[i]]
  }

  /** The defaults table a call uses for keyword rewriting, and whether its method is static. */
  datatype Defaults = Defaults(slots: Option<seq<Slot>>, isStatic: bool)

  function DefaultsFor(env: Env, func: string): (r: Defaults)
    ensures r.slots.Some? ==> Usable(r.slots.value)
    ensures !Contains(func, '.') ==> !r.isStatic
    ensures !Contains(func, '.') && func in env.functions && Usable(env.functions[func]) ==> r.slots == Some(env.functions[func])
    ensures !Contains(func, '.') && func !in env.functions ==> r.slots.None?
  {
    if !Contains(func, '.') then
      Defaults(if func in env.functions && Usable(env.functions[func]) then Some(env.functions[func]) else None, false)
    else
      var (ins, meth) := SplitFirst(func, '.');
      var fromClass :=
        if ins in env.classesClassFunctionsArgs && meth in env.classesClassFunctionsArgs[ins]
           && Usable(env.classesClassFunctionsArgs[ins][meth])
        then Some(env.classesClassFunctionsArgs[ins][meth]) else None;
      var fromSelf :=
        if ins in env.classesSelfFunctionsArgs && meth in env.classesSelfFunctionsArgs[ins]
           && Usable(env.classesSelfFunctionsArgs[ins][meth])
        then Some(env.classesSelfFunctionsArgs[ins][meth]) else fromClass;
      Defaults(fromSelf, meth in env.classFunctions)
  }

  /** A non-static callee's leading `self` argument is dropped. */
  function DropSelf(isStatic: bool, args: seq<string>): seq<string>
  {
    if !isStatic && |args| > 0 && args[0] == "self" then args[1..] else args
  }

  /** `empty_list`: typed by the annotation in force, otherwise untyped with a warning. */
  function EmptyListText(env: Env, st: St, crytype: Option<Node>): (r: Result<Out>)
    ensures r.Ok? ==> r.value.st.severity >= st.severity
    ensures crytype.None? ==> r == Ok(Out("[]", Warn(env, st)))
    ensures crytype.Some? ==> (r.Ok? <==> CrystalTypes.UnwrapList(crytype.value).Ok?)
    ensures crytype.Some? && r.Ok? ==> r.value == Out("[] of " + CrystalTypes.UnwrapList(crytype.value).value, st)
  {
    match crytype
    case Some(t) => var a :- CrystalTypes.UnwrapList(t); Ok(Out("[] of " + a, st))
    case None => Ok(Out("[]", Warn(env, st)))
  }

  /** `empty_hash`: `{} of K => V` under an annotation, otherwise untyped with a warning. */
  function EmptyHashText(env: Env, st: St, crytype: Option<Node>): (r: Result<Out>)
    ensures r.Ok? ==> r.value.st.severity >= st.severity
    ensures crytype.None? ==> r == Ok(Out("{}", Warn(env, st)))
    ensures crytype.Some? ==> (r.Ok? <==> CrystalTypes.UnwrapDict(crytype.value).Ok?)
    ensures crytype.Some? && r.Ok? ==>
      r.value == Out("{} of " + CrystalTypes.UnwrapDict(crytype.value).value.0 + " => " + CrystalTypes.UnwrapDict(crytype.value).value.1, st)
  {
    match crytype
    case Some(t) => var kv :- CrystalTypes.UnwrapDict(t); Ok(Out("{} of " + kv.0 + " => " + kv.1, st))
    case None => Ok(Out("{}", Warn(env, st)))
  }

  /** The `methods_map_middle` form: `a.m` or `a.m b`. */
  function MiddleForm(cry: seq<string>, m: string): (r: Result<string>)
    ensures r.Ok? <==> |cry| > 0
    ensures |cry| == 1 ==> r == Ok(cry[0] + "." + m)
    ensures |cry| >= 2 ==> r == Ok(cry[0] + "." + m + " " + cry[1])
  {
    if |cry| == 0 then Err(RuntimeFault("IndexError"))
    else if |cry| == 1 then Ok(cry[0] + "." + m)
    else Ok(cry[0] + "." + m + " " + cry[1])
  }

  /**
   * The rest of `visit_Call` when no rule applies, in its fixed order:
   * min/max, the reverse-method table, `join`, lambda calls, proc calls,
   * then a plain call.
   */
  function Resolve(env: Env, callee: Node, func: string, cry: seq<string>): (r: Result<string>)
  {
    var s := Join(cry, ", ");
    if func in MinMaxMethods then
      Ok(if |cry| > 1 then "{" + OpeFilter(s) + "}." + func else OpeFilter(s) + "." + func)
    else if func in ReverseMethods then
      if |cry| == 1 then Ok(OpeFilter(s) + "." + ReverseMethods[func])
      else if |cry| == 0 then Err(RuntimeFault("IndexError"))
      else Ok(OpeFilter(cry[0]) + "." + ReverseMethods[func] + "(" + Join(cry[1..], ", ") + ")")
    else if callee.Attribute? && callee.attr in CallAttributeMap then Ok(s + "." + func)
    else if callee.Lambda? || func in env.lambdaFunctions then Ok(func + ".call(" + s + ")")
    else if func !in env.scope && |func| == 0 then Err(RuntimeFault("IndexError"))
    else if (func in env.scope || func[0] == '@') && !Contains(func, '.') then Ok(func + ".py_call(" + s + ")")
    else if func[|func| - 1] == ')' then Ok(func)
    else Ok(func + "(" + s + ")")
  }

  /** `visit`: the mode filter, then the visitor for the node's kind. */
  function Lower(env: Env, reg: TranslatorRegistry, st: St, n: Node, crytype: Option<Node>): (r: Result<Out>)
    ensures r.Ok? ==> r.value.st.severity >= st.severity
    ensures env.mode == NoError && !n.Name? && !n.Attribute? ==> r == Ok(Out("", st))
    decreases n, 4
  {
    if env.mode == NoError && !n.Name? && !n.Attribute? then Ok(Out("", st))
    else match n
      case Name(id) => Ok(Out(NameText(id, st.call), st))
      case Constant(c) => var t :- ConstantText(c, st.symbol); Ok(Out(t, st))
      case Tuple(elts) =>
        var o :- LowerAll(env, reg, st, elts);
        var t :- TupleText(o.st.tupleType, o.texts);
        Ok(Out(t, o.st))
      case List(elts) =>
        var o :- LowerAll(env, reg, st, elts);
        if |o.texts| > 0 then Ok(Out("[" + Join(o.texts, ", ") + "]", o.st))
        else EmptyListText(env, o.st, crytype)
      case Dict(_, _) => LowerDict(env, reg, st, n, 0, [], crytype)
      case Attribute(_, _) => LowerAttribute(env, reg, st, n)
      case Subscript(_, _) => LowerSubscript(env, reg, st, n)
      case Slice(_, _, _) =>
        var p :- LowerSliceParts(env, reg, st, n);
        Ok(Out(SliceRange(p.lower, p.upper), p.st))
      case Compare(_, _, _) => LowerCompare(env, reg, st, n)
      case Call(_, _, _) => LowerCall(env, reg, st, n, crytype)
      case Lambda(params, body) =>
        var b :- Lower(env, reg, st, body, None);
        Ok(Out("->(" + ParamsText(params) + ") { " + b.text + " }", b.st))
      case ArgNode(a) => Ok(Out(a, st))
      case Other(kind) =>
        if env.mode == Stop then Err(ConvertError("Syntax not supported (" + kind + ")"))
        else Ok(Out("", Warn(env, st)))
  }

  /** Visits the nodes left to right, threading the state. */
  function LowerAll(env: Env, reg: TranslatorRegistry, st: St, ns: seq<Node>): (r: Result<Outs>)
    ensures r.Ok? ==> |r.value.texts| == |ns| && r.value.st.severity >= st.severity
    decreases ns
  {
    if |ns| == 0 then Ok(Outs([], st))
    else
      var h :- Lower(env, reg, st, ns[0], None);
      var t :- LowerAll(env, reg, h.st, ns[1..]);
      Ok(Outs([h.text] + t.texts, t.st))
  }

  /** `visit_Dict`: `"k" => v` for a name key, `k => v` otherwise; no entries is the empty-hash rule. */
  function LowerDict(env: Env, reg: TranslatorRegistry, st: St, n: Node, i: nat, acc: seq<string>, crytype: Option<Node>): (r: Result<Out>)
    requires n.Dict?
    ensures r.Ok? ==> r.value.st.severity >= st.severity
    decreases n, 2, (if |n.keys| < |n.values| then |n.keys| else |n.values|) - i
  {
    var m := if |n.keys| < |n.values| then |n.keys| else |n.values|;
    if i >= m then
      if |acc| > 0 then Ok(Out("{" + Join(acc, ", ") + "}", st)) else EmptyHashText(env, st, crytype)
    else
      var k :- Lower(env, reg, st, n.keys[i], None);
      var v :- Lower(env, reg, k.st, n.values[i], None);
      var e := if n.keys[i].Name? then "\"" + k.text + "\" => " + v.text else k.text + " => " + v.text;
      LowerDict(env, reg, v.st, n, i + 1, acc + [e], crytype)
  }

  /** `super().attr` and `Base.attr` inside a method. */
  function SuperRef(env: Env, st: St, attr: string): (r: Result<Out>)
    ensures r.Ok? ==> r.value.st == st
  {
    if |env.functionStack| == 0 then Err(RuntimeFault("IndexError"))
    else if attr == env.functionStack[|env.functionStack| - 1] then Ok(Out("super", st))
    else if attr in env.selfFunctions then Ok(Out("public_method(:" + attr + ").super_method.call", st))
    else Ok(Out(attr, st))
  }

  /** The last resort of `visit_Attribute`: `value.attr`, the value parenthesised when it looks arithmetic. */
  function GenericAttr(env: Env, reg: TranslatorRegistry, st: St, n: Node, attr: string): (r: Result<Out>)
    requires n.Attribute?
    ensures r.Ok? ==> r.value.st.severity >= st.severity
    decreases n, 0
  {
    var v :- Lower(env, reg, st, n.value, None);
    if attr != "" then Ok(Out(OpeFilter(v.text) + "." + attr, v.st)) else Ok(v)
  }

  /** `visit_Attribute` on a name: `self`, an ancestor, the current class, or another class. */
  function NameAttr(env: Env, reg: TranslatorRegistry, st: St, n: Node, attr: string): (r: Result<Out>)
    requires n.Attribute? && n.value.Name?
    ensures r.Ok? ==> r.value.st.severity >= st.severity
    decreases n, 1
  {
    var id := n.value.id;
    if id == "self" then
      if attr in env.classFunctions then
        Ok(Out((if env.rclassName.Some? then env.rclassName.value else "None") + "." + attr, st))
      else if attr in env.selfFunctions then Ok(Out(attr, st))
      else if env.className.Some? then
        if env.className.value !in env.basesOf then Err(RuntimeFault("KeyError"))
        else if Inherits(env, env.basesOf[env.className.value], attr) then Ok(Out(attr, st))
        else Ok(Out("@" + attr, st))
      else GenericAttr(env, reg, st, n, attr)
    else if env.className.Some? && env.className.value !in env.basesOf then Err(RuntimeFault("KeyError"))
    else if env.className.Some? && id in env.basesOf[env.className.value] then SuperRef(env, st, attr)
    else if env.className == Some(id) then
      if attr in env.classVariables then Ok(Out("@@" + attr, st)) else GenericAttr(env, reg, st, n, attr)
    else if id in env.classNames then
      if id !in env.classesFunctions then Err(RuntimeFault("KeyError"))
      else if attr in env.classesFunctions[id] then Ok(Out(Formatter.Capitalize(id) + "." + attr, st))
      else GenericAttr(env, reg, st, n, attr)
    else GenericAttr(env, reg, st, n, attr)
  }

  /**
   * `visit_Attribute`: a registry rename of `module.attr` wins; otherwise
   * the attribute is renamed by the method tables and rendered by the
   * value's kind.
   */
  function LowerAttribute(env: Env, reg: TranslatorRegistry, st: St, n: Node): (r: Result<Out>)
    requires n.Attribute?
    ensures r.Ok? ==> r.value.st.severity >= st.severity
    decreases n, 2
  {
    var value := n.value;
    var isSelf := value.Name? && value.id == "self";
    var modName := if n.attr != "" && value.Name? && !isSelf then Dealias(env, NameText(value.id, st.call)) else "";
    var renamed := reg.AttrLookup(modName, n.attr);
    if !isSelf && renamed.Some? && renamed.value != "" then Ok(Out(renamed.value, st))
    else
      var attr := if isSelf then n.attr else ArgFormRename(MethodRename(n.attr), st.funcArgsLen);
      match value
      case Call(f, _, _) =>
        if f.Name? && f.id == "super" then SuperRef(env, st, attr) else GenericAttr(env, reg, st, n, attr)
      case Name(_) => NameAttr(env, reg, st, n, attr)
      case Constant(c) =>
        if c.CStr? && n.attr in CallAttributeMap then
          var v :- Lower(env, reg, st, value, None);
          Ok(Out(attr + "(" + v.text + ")", v.st))
        else GenericAttr(env, reg, st, n, attr)
      case _ => GenericAttr(env, reg, st, n, attr)
  }

  /** `process_slice_with_step`: the three optional bounds, visited in order. */
  function LowerSliceParts(env: Env, reg: TranslatorRegistry, st: St, s: Node): (r: Result<SliceParts>)
    requires s.Slice?
    ensures r.Ok? ==> r.value.st.severity >= st.severity
    ensures r.Ok? ==> (r.value.lower.Some? <==> s.lower.Some?) && (r.value.upper.Some? <==> s.upper.Some?)
    ensures r.Ok? ==> (r.value.step.Some? <==> s.step.Some?)
    decreases s, 1
  {
    var lo :- if s.lower.Some? then
        var o :- Lower(env, reg, st, s.lower.value, None); Ok((Some(o.text), o.st))
      else Ok((None, st));
    var up :- if s.upper.Some? then
        var o :- Lower(env, reg, lo.1, s.upper.value, None); Ok((Some(o.text), o.st))
      else Ok((None, lo.1));
    var stp :- if s.step.Some? then
        var o :- Lower(env, reg, up.1, s.step.value, None); Ok((Some(o.text), o.st))
      else Ok((None, up.1));
    Ok(SliceParts(lo.0, up.0, stp.0, stp.1))
  }

  /** `visit_Subscript`: an index, a slice with its stepping suffix, or any other subscript. */
  function LowerSubscript(env: Env, reg: TranslatorRegistry, st: St, n: Node): (r: Result<Out>)
    requires n.Subscript?
    ensures r.Ok? ==> r.value.st.severity >= st.severity
    decreases n, 2
  {
    var v :- Lower(env, reg, st.(symbol := false), n.value, None);
    var filt := OpeFilter(v.text);
    if n.slice.Constant? || n.slice.Name? then
      var marked := ("**" + v.text) in env.functionArgs;
      var i :- Lower(env, reg, v.st.(symbol := v.st.symbol || marked), n.slice, None);
      Ok(Out(filt + "[" + i.text + "]", i.st.(symbol := false)))
    else if n.slice.Slice? then
      var p :- LowerSliceParts(env, reg, v.st, n.slice);
      Ok(Out(SliceSubscript(v.text, p.lower, p.upper, p.step), p.st))
    else
      var i :- Lower(env, reg, v.st, n.slice, None);
      Ok(Out(filt + "[" + i.text + "]", i.st))
  }

  /** `visit_Compare`: the left operand, then each comparator, chained. */
  function LowerCompare(env: Env, reg: TranslatorRegistry, st: St, n: Node): (r: Result<Out>)
    requires n.Compare?
    ensures r.Ok? ==> r.value.st.severity >= st.severity
    ensures |n.ops| != |n.comparators| ==> r.Err?
    decreases n, 2
  {
    if |n.ops| != |n.comparators| then Err(RuntimeFault("AssertionError"))
    else if |n.ops| == 0 then Ok(Out("", st))
    else
      var l :- Lower(env, reg, st, n.left, None);
      var cs :- LowerAll(env, reg, l.st, n.comparators);
      Ok(Out(Chain(Pairs(l.text, n.ops, cs.texts)), cs.st))
  }

  /** `visit_keyword`, done twice per keyword as `visit_Call` does; the second text is unused. */
  function LowerKeywords(env: Env, reg: TranslatorRegistry, st: St, kws: seq<Keyword>): (r: Result<Outs>)
    ensures r.Ok? ==> |r.value.texts| == |kws| && r.value.st.severity >= st.severity
    decreases kws
  {
    if |kws| == 0 then Ok(Outs([], st))
    else
      assert kws[0] in kws && kws[0].value < kws[0];
      var v1 :- Lower(env, reg, st, kws[0].value, None);
      var v2 :- Lower(env, reg, v1.st, kws[0].value, None);
      var t :- LowerKeywords(env, reg, v2.st, kws[1..]);
      var name := if kws[0].arg.Some? then kws[0].arg.value else "None";
      Ok(Outs([name + ": " + v1.text] + t.texts, t.st))
  }

  /** `visit_Lambda(node, style="block")`. */
  function LowerLambdaBlock(env: Env, reg: TranslatorRegistry, st: St, l: Node): (r: Result<Out>)
    requires l.Lambda?
    ensures r.Ok? ==> r.value.st.severity >= st.severity
    decreases l, 2
  {
    var b :- Lower(env, reg, st, l.body, None);
    Ok(Out("{ |" + ParamsText(l.params) + "| " + b.text + " }", b.st))
  }

  /** The element loop of `dict([...])`: each element in `=>` mode, the mode set back to `[]` after it. */
  function LowerDictOfList(env: Env, reg: TranslatorRegistry, st: St, elts: seq<Node>): (r: Result<Outs>)
    ensures r.Ok? ==> |r.value.texts| == |elts| && r.value.st.severity >= st.severity
    ensures r.Ok? && |elts| > 0 ==> r.value.st.tupleType == "[]"
    decreases elts
  {
    if |elts| == 0 then Ok(Outs([], st))
    else
      var h :- Lower(env, reg, st.(tupleType := "=>"), elts[0], None);
      var t :- LowerDictOfList(env, reg, h.st.(tupleType := "[]"), elts[1..]);
      Ok(Outs([h.text] + t.texts, t.st))
  }

  /** Runs a registry rule and carries out what it asks of the visitor. */
  function ApplyRule(env: Env, reg: TranslatorRegistry, st: St, n: Node, rule: Rule, info: CallInfo, crytype: Option<Node>): (r: Result<Out>)
    requires n.Call? && info.nodeArgs == n.args
    ensures r.Ok? ==> r.value.st.severity >= st.severity
    decreases n, 0
  {
    var wants :- Registry.WantsBlock(rule, info);
    var b :- if wants then
        var o :- LowerLambdaBlock(env, reg, st, n.args[0]); Ok((Some(o.text), o.st))
      else Ok((None, st));
    var o :- env.rules(rule, info, b.0);
    match o
    case Text(t) => Ok(Out(t, b.1))
    case NoText => Err(NotImplemented("translation rule returned no text"))
    case EmptyList => EmptyListText(env, b.1, crytype)
    case EmptyHash => EmptyHashText(env, b.1, crytype)
    case DictOfList =>
      if |n.args| == 0 || !(n.args[0].List? || n.args[0].Tuple?) then Err(RuntimeFault("AttributeError"))
      else
        var d :- LowerDictOfList(env, reg, b.1, n.args[0].elts);
        Ok(Out("{" + Join(d.texts, ", ") + "}", d.st))
  }

  /** `visit_Call` after the arguments and keywords are rendered: calls of calls, registry rules, then `Resolve`. */
  function LowerCallTail(env: Env, reg: TranslatorRegistry, st: St, n: Node, func: string, cry: seq<string>, crytype: Option<Node>): (r: Result<Out>)
    requires n.Call?
    ensures r.Ok? ==> r.value.st.severity >= st.severity
    decreases n, 1
  {
    if n.func.Call? then Ok(Out(func + ".py_call(" + Join(cry, ", ") + ")", st))
    else
      var (mod, name) := SetFunc(func);
      match reg.FuncLookup(Dealias(env, mod), name)
      case Some(rule) => ApplyRule(env, reg, st, n, rule, CallInfo(func, cry, n.args), crytype)
      case None => var t :- Resolve(env, n.func, func, cry); Ok(Out(t, st))
  }

  /**
   * `visit_Call`: render the arguments, then the callee with the callee
   * flag set (and the argument count recorded for `visit_Attribute`).
   */
  function LowerCall(env: Env, reg: TranslatorRegistry, st: St, n: Node, crytype: Option<Node>): (r: Result<Out>)
    requires n.Call?
    ensures r.Ok? ==> r.value.st.severity >= st.severity
    decreases n, 3
  {
    var a :- LowerAll(env, reg, st, n.args);
    var plain := !n.func.Call?;
    var f :- Lower(env, reg, a.st.(funcArgsLen := |a.texts|, call := plain || a.st.call), n.func, None);
    CallWithCallee(env, reg, if plain then f.st.(call := false) else f.st, n, a.texts, f.text, crytype)
  }

  /**
   * `visit_Call` once the callee is rendered: a class name becomes its
   * constructor, a `methods_map_middle` name returns at once; otherwise a
   * leading `self` is dropped (non-static callee), defaulted positions are
   * rewritten as keywords and the keyword arguments are added.
   */
  function CallWithCallee(env: Env, reg: TranslatorRegistry, st: St, n: Node, args: seq<string>, callee: string, crytype: Option<Node>): (r: Result<Out>)
    requires n.Call?
    ensures r.Ok? ==> r.value.st.severity >= st.severity
    decreases n, 2
  {
    if env.className.Some? && env.className.value !in env.basesOf then Err(RuntimeFault("KeyError"))
    else
      var func := if callee in env.classNames then Formatter.Capitalize(callee) + ".new" else callee;
      if func in MethodsMapMiddle then
        var t :- MiddleForm(args, MethodsMapMiddle[func]);
        Ok(Out(t, st))
      else
        var d := DefaultsFor(env, func);
        var dropped := DropSelf(d.isStatic, args);
        var positional := if d.slots.Some? then Rewritten(dropped, d.slots.value) else dropped;
        var k :- LowerKeywords(env, reg, st.(funcArgsLen := 0), n.keywords);
        LowerCallTail(env, reg, k.st, n, func, positional + k.texts, crytype)
  }

  // ---------------------------------------------------------------------
  // Whole calls
  //
  // Facts about the constant tables are proved apart from the visitor
  // functions and handed to the lemmas about whole visits.

  /** A name that no visitor table renames. */
  predicate Unrenamed(x: string)
  {
    x !in NameMap && x !in ExceptionMap && x !in FuncNameMap
  }

  /** An argument whose visit neither fails nor changes the state: such a name, or an integer. */
  predicate Simple(n: Node)
  {
    (n.Name? && Unrenamed(n.id)) || (n.Constant? && n.c.CInt?)
  }

  function SimpleText(n: Node): string
    requires Simple(n)
  {
    if n.Name? then n.id else IntText(n.c.i)
  }

  function SimpleTexts(ns: seq<Node>): (r: seq<string>)
    requires forall i :: 0 <= i < |ns| ==> Simple(ns[i])
    ensures |r| == |ns|
  {
    if |ns| == 0 then [] else [SimpleText(ns[0])] + SimpleTexts(ns[1..])
  }

  lemma SimpleLowers(env: Env, reg: TranslatorRegistry, st: St, n: Node)
    requires env.mode != NoError && Simple(n)
    ensures Lower(env, reg, st, n, None) == Ok(Out(SimpleText(n), st))
  {
  }

  lemma {:induction false} SimpleArgs(env: Env, reg: TranslatorRegistry, st: St, ns: seq<Node>)
    requires env.mode != NoError
    requires forall i :: 0 <= i < |ns| ==> Simple(ns[i])
    ensures LowerAll(env, reg, st, ns) == Ok(Outs(SimpleTexts(ns), st))
    decreases |ns|
  {
    if |ns| > 0 {
      SimpleLowers(env, reg, st, ns[0]);
      SimpleArgs(env, reg, st, ns[1..]);
    }
  }

  /** The callee is visited with the callee flag set, which `visit_Call` clears again afterwards. */
  lemma CalleeState(st: St, k: nat)
    requires !st.call
    ensures st.(funcArgsLen := k, call := true).(call := false) == st.(funcArgsLen := k)
  {
  }

  lemma ResetCount(st: St, k: nat)
    ensures st.(funcArgsLen := k).(funcArgsLen := 0) == st.(funcArgsLen := 0)
  {
  }

  lemma NameLowers(env: Env, reg: TranslatorRegistry, st: St, id: string)
    requires env.mode != NoError
    ensures Lower(env, reg, st, Name(id), None) == Ok(Out(NameText(id, st.call), st))
  {
  }

  lemma UnrenamedText(id: string, call: bool)
    requires Unrenamed(id)
    ensures NameText(id, call) == id
  {
  }

  /** `visit_Call` with a callee that is not itself a call: arguments first, then the callee with the flag set. */
  lemma CallSteps(env: Env, reg: TranslatorRegistry, st: St, n: Node, texts: seq<string>, ast: St, ftext: string, fst: St, crytype: Option<Node>)
    requires n.Call? && !n.func.Call?
    requires LowerAll(env, reg, st, n.args) == Ok(Outs(texts, ast))
    requires Lower(env, reg, ast.(funcArgsLen := |texts|, call := true), n.func, None) == Ok(Out(ftext, fst))
    ensures LowerCall(env, reg, st, n, crytype) == CallWithCallee(env, reg, fst.(call := false), n, texts, ftext, crytype)
  {
  }

  lemma CallIsLowerCall(env: Env, reg: TranslatorRegistry, st: St, n: Node, crytype: Option<Node>)
    requires env.mode != NoError && n.Call?
    ensures Lower(env, reg, st, n, crytype) == LowerCall(env, reg, st, n, crytype)
  {
  }

  /** A name callee that no table renames: after arguments that leave the state alone the visit reaches `CallWithCallee`. */
  lemma PlainCallHead(env: Env, reg: TranslatorRegistry, st: St, f: string, args: seq<Node>, texts: seq<string>, crytype: Option<Node>)
    requires env.mode != NoError && !st.call && NameText(f, true) == f
    requires LowerAll(env, reg, st, args) == Ok(Outs(texts, st))
    ensures Lower(env, reg, st, Call(Name(f), args, []), crytype) ==
      CallWithCallee(env, reg, st.(funcArgsLen := |texts|), Call(Name(f), args, []), texts, f, crytype)
  {
    var n := Call(Name(f), args, []);
    var st0 := st.(funcArgsLen := |texts|, call := true);
    NameLowers(env, reg, st0, f);
    CalleeState(st, |texts|);
    CallIsLowerCall(env, reg, st, n, crytype);
    CallSteps(env, reg, st, n, texts, st, f, st0, crytype);
  }

  /** A `methods_map_middle` callee outside any class: the middle form of the rendered arguments. */
  lemma MiddleCall(env: Env, reg: TranslatorRegistry, st: St, f: string, args: seq<Node>, texts: seq<string>, text: string)
    requires env.mode != NoError && env.className.None? && !st.call
    requires NameText(f, true) == f && f !in env.classNames && f in MethodsMapMiddle
    requires LowerAll(env, reg, st, args) == Ok(Outs(texts, st))
    requires MiddleForm(texts, MethodsMapMiddle[f]) == Ok(text)
    ensures Lower(env, reg, st, Call(Name(f), args, []), None) == Ok(Out(text, st.(funcArgsLen := |texts|)))
  {
    PlainCallHead(env, reg, st, f, args, texts, None);
  }

  /** A module-less function name that no table renames or treats specially. */
  predicate PlainName(name: string)
  {
    !Contains(name, '.') && NameText(name, true) == name && name !in MethodsMapMiddle
  }

  /** The visitor tables neither make `name` a class nor give the empty module an alias. */
  predicate Unshadowed(env: Env, name: string)
  {
    name !in env.classNames && "" !in env.moduleAliases
  }

  /** The standard registry holds no rule for the module-less `name`. */
  predicate Unruled(reg: TranslatorRegistry, name: string)
    reads reg
  {
    Registry.Standard(reg) && name !in PyMain.MainRules.members
  }

  lemma PlainCalleeNotRuled(env: Env, reg: TranslatorRegistry, name: string)
    requires PlainName(name) && Unshadowed(env, name) && Unruled(reg, name)
    ensures SetFunc(name) == ("", name)
    ensures reg.FuncLookup(Dealias(env, ""), name) == None
  {
    SetFuncSplitsAtLastDot(name);
    Registry.RegisteredModules();
  }

  /**
   * Without keywords, a plain callee outside any class keeps its arguments
   * unless its own defaults rewrite some of them as keywords.
   */
  lemma PlainCallBody(env: Env, reg: TranslatorRegistry, st: St, f: string, args: seq<Node>, texts: seq<string>, positional: seq<string>, crytype: Option<Node>)
    requires env.className.None? && PlainName(f) && Unshadowed(env, f)
    requires |texts| > 0 ==> texts[0] != "self"
    requires positional == if f in env.functions && Usable(env.functions[f]) then Rewritten(texts, env.functions[f]) else texts
    ensures CallWithCallee(env, reg, st, Call(Name(f), args, []), texts, f, crytype) ==
      LowerCallTail(env, reg, st.(funcArgsLen := 0), Call(Name(f), args, []), f, positional, crytype)
  {
    NoKeywords(env, reg, st.(funcArgsLen := 0));
    PlainPositional(env, f, texts, positional);
  }

  lemma NoKeywords(env: Env, reg: TranslatorRegistry, st: St)
    ensures LowerKeywords(env, reg, st, []) == Ok(Outs([], st))
  {
  }

  /** The positional arguments `visit_Call` keeps for a module-less callee whose first argument is not `self`. */
  lemma PlainPositional(env: Env, f: string, texts: seq<string>, positional: seq<string>)
    requires !Contains(f, '.') && (|texts| > 0 ==> texts[0] != "self")
    requires positional == if f in env.functions && Usable(env.functions[f]) then Rewritten(texts, env.functions[f]) else texts
    ensures var d := DefaultsFor(env, f);
      var dropped := DropSelf(d.isStatic, texts);
      (if d.slots.Some? then Rewritten(dropped, d.slots.value) else dropped) + [] == positional
  {
    var d := DefaultsFor(env, f);
    assert !d.isStatic;
    assert d.slots.Some? ==> d.slots.value == env.functions[f];
    assert positional + [] == positional;
  }

  /** With no rule for the callee, the tail of `visit_Call` is `Resolve`. */
  lemma PlainTail(env: Env, reg: TranslatorRegistry, st: St, f: string, args: seq<Node>, cry: seq<string>)
    requires PlainName(f) && Unshadowed(env, f) && Unruled(reg, f)
    ensures Resolve(env, Name(f), f, cry).Err? ==> LowerCallTail(env, reg, st, Call(Name(f), args, []), f, cry, None).Err?
    ensures Resolve(env, Name(f), f, cry).Ok? ==>
      LowerCallTail(env, reg, st, Call(Name(f), args, []), f, cry, None) == Ok(Out(Resolve(env, Name(f), f, cry).value, st))
  {
    PlainCalleeNotRuled(env, reg, f);
  }

  /**
   * A call of a plain callee that no rule claims, outside any class, with
   * arguments that leave the state alone: its text is what `Resolve` makes
   * of the (rewritten) arguments, and only the argument count is reset.
   */
  lemma PlainCall(env: Env, reg: TranslatorRegistry, st: St, f: string, args: seq<Node>, texts: seq<string>, positional: seq<string>, text: string)
    requires env.mode != NoError && env.className.None? && !st.call
    requires PlainName(f) && Unshadowed(env, f) && Unruled(reg, f)
    requires LowerAll(env, reg, st, args) == Ok(Outs(texts, st))
    requires |texts| > 0 ==> texts[0] != "self"
    requires positional == if f in env.functions && Usable(env.functions[f]) then Rewritten(texts, env.functions[f]) else texts
    requires Resolve(env, Name(f), f, positional) == Ok(text)
    ensures Lower(env, reg, st, Call(Name(f), args, []), None) == Ok(Out(text, st.(funcArgsLen := 0)))
  {
    PlainCallHead(env, reg, st, f, args, texts, None);
    PlainCallBody(env, reg, st.(funcArgsLen := |texts|), f, args, texts, positional, None);
    ResetCount(st, |texts|);
    PlainTail(env, reg, st.(funcArgsLen := 0), f, args, positional);
  }

  /** With a rule registered for the module-less callee, the tail of `visit_Call` runs that rule. */
  lemma RuledTail(env: Env, reg: TranslatorRegistry, st: St, f: string, args: seq<Node>, cry: seq<string>, rule: Rule, crytype: Option<Node>)
    requires !Contains(f, '.') && "" !in env.moduleAliases
    requires reg.FuncLookup("", f) == Some(rule)
    ensures LowerCallTail(env, reg, st, Call(Name(f), args, []), f, cry, crytype) ==
      ApplyRule(env, reg, st, Call(Name(f), args, []), rule, CallInfo(f, cry, args), crytype)
  {
    SetFuncSplitsAtLastDot(f);
  }

  lemma NoArgs(env: Env, reg: TranslatorRegistry, st: St)
    ensures LowerAll(env, reg, st, []) == Ok(Outs([], st))
  {
  }

  lemma NoArgsPositional(env: Env, f: string)
    ensures (if f in env.functions && Usable(env.functions[f]) then Rewritten([], env.functions[f]) else []) == []
  {
  }

  /** A call without arguments of a module-less callee that a rule claims, outside any class: the rule decides. */
  lemma RuledNoArgCall(env: Env, reg: TranslatorRegistry, st: St, f: string, rule: Rule, crytype: Option<Node>)
    requires env.mode != NoError && env.className.None? && !st.call
    requires PlainName(f) && Unshadowed(env, f)
    requires reg.FuncLookup("", f) == Some(rule)
    ensures Lower(env, reg, st, Call(Name(f), [], []), crytype) ==
      ApplyRule(env, reg, st.(funcArgsLen := 0), Call(Name(f), [], []), rule, CallInfo(f, [], []), crytype)
  {
    NoArgs(env, reg, st);
    PlainCallHead(env, reg, st, f, [], [], crytype);
    NoArgsPositional(env, f);
    PlainCallBody(env, reg, st.(funcArgsLen := 0), f, [], [], [], crytype);
    ResetCount(st, 0);
    RuledTail(env, reg, st.(funcArgsLen := 0), f, [], [], rule, crytype);
  }

  /** A rule without a block that asks for an empty literal, or gives text, under the standard dispatch. */
  lemma RuleOutcome(env: Env, reg: TranslatorRegistry, st: St, n: Node, rule: Rule, info: CallInfo, crytype: Option<Node>, o: Outcome)
    requires n.Call? && info.nodeArgs == n.args
    requires Registry.WantsBlock(rule, info) == Ok(false)
    requires env.rules(rule, info, None) == Ok(o)
    ensures o == EmptyList ==> ApplyRule(env, reg, st, n, rule, info, crytype) == EmptyListText(env, st, crytype)
    ensures o == EmptyHash ==> ApplyRule(env, reg, st, n, rule, info, crytype) == EmptyHashText(env, st, crytype)
    ensures o.Text? ==> ApplyRule(env, reg, st, n, rule, info, crytype) == Ok(Out(o.s, st))
  {
  }

  // ---------------------------------------------------------------------
  // Examples of whole calls

  lemma OneName(env: Env, reg: TranslatorRegistry, st: St, x: string)
    requires env.mode != NoError && Unrenamed(x)
    ensures LowerAll(env, reg, st, [Name(x)]) == Ok(Outs([x], st))
  {
    var ns := [Name(x)];
    SimpleLowers(env, reg, st, Name(x));
    assert Lower(env, reg, st, ns[0], None) == Ok(Out(x, st));
    assert ns[1..] == [];
    assert LowerAll(env, reg, st, ns[1..]) == Ok(Outs([], st));
    assert [x] + [] == [x];
  }

  lemma TwoNodes(env: Env, reg: TranslatorRegistry, st: St, a: Node, b: Node)
    requires env.mode != NoError && Simple(a) && Simple(b)
    ensures LowerAll(env, reg, st, [a, b]) == Ok(Outs([SimpleText(a), SimpleText(b)], st))
  {
    var ns := [a, b];
    SimpleLowers(env, reg, st, a);
    SimpleLowers(env, reg, st, b);
    assert Lower(env, reg, st, ns[0], None) == Ok(Out(SimpleText(a), st));
    assert ns[1..] == [b];
    OneNode(env, reg, st, b);
    assert [SimpleText(a)] + [SimpleText(b)] == [SimpleText(a), SimpleText(b)];
  }

  lemma OneNode(env: Env, reg: TranslatorRegistry, st: St, b: Node)
    requires env.mode != NoError && Simple(b)
    ensures LowerAll(env, reg, st, [b]) == Ok(Outs([SimpleText(b)], st))
  {
    var ns := [b];
    SimpleLowers(env, reg, st, b);
    assert Lower(env, reg, st, ns[0], None) == Ok(Out(SimpleText(b), st));
    assert ns[1..] == [];
    assert LowerAll(env, reg, st, ns[1..]) == Ok(Outs([], st));
    assert [SimpleText(b)] + [] == [SimpleText(b)];
  }

  lemma AllTables(x: string)
    ensures NameText("all", true) == "all" && "all" in MethodsMapMiddle
    ensures MiddleForm([x], MethodsMapMiddle["all"]) == Ok(x + ".py_all?")
  {
    assert x + "." + "py_all?" == x + ".py_all?";
  }

  /** `all(l)` becomes `l.py_all?` (a `methods_map_middle` name with one argument). */
  lemma AllCall(env: Env, reg: TranslatorRegistry, st: St, x: string)
    requires env.mode != NoError && env.className.None? && !st.call && "all" !in env.classNames
    requires Unrenamed(x)
    ensures Lower(env, reg, st, Call(Name("all"), [Name(x)], []), None) == Ok(Out(x + ".py_all?", st.(funcArgsLen := 1)))
  {
    AllTables(x);
    OneName(env, reg, st, x);
    MiddleCall(env, reg, st, "all", [Name(x)], [x], x + ".py_all?");
  }

  lemma IsInstanceTables(a: string, b: string)
    ensures NameText("isinstance", true) == "isinstance" && "isinstance" in MethodsMapMiddle
    ensures MiddleForm([a, b], MethodsMapMiddle["isinstance"]) == Ok(a + ".is_a? " + b)
    ensures Simple(Name(a)) && Simple(Name(b)) ==> SimpleText(Name(a)) == a && SimpleText(Name(b)) == b
  {
    assert a + "." + "is_a?" + " " + b == a + ".is_a? " + b;
  }

  /** `isinstance(a, B)` becomes `a.is_a? B` (a `methods_map_middle` name with two arguments). */
  lemma IsInstanceCall(env: Env, reg: TranslatorRegistry, st: St, a: string, b: string)
    requires env.mode != NoError && env.className.None? && !st.call && "isinstance" !in env.classNames
    requires Unrenamed(a) && Unrenamed(b)
    ensures Lower(env, reg, st, Call(Name("isinstance"), [Name(a), Name(b)], []), None) == Ok(Out(a + ".is_a? " + b, st.(funcArgsLen := 2)))
  {
    IsInstanceTables(a, b);
    TwoNodes(env, reg, st, Name(a), Name(b));
    MiddleCall(env, reg, st, "isinstance", [Name(a), Name(b)], [a, b], a + ".is_a? " + b);
  }

  /** Text made of operator-free parts joined by a comma is operator-free. */
  lemma PairHasNoOperator(a: string, b: string)
    requires !HasOperator(a) && !HasOperator(b)
    ensures !HasOperator(a + ", " + b)
  {
    forall c | c in "-+*/%" ensures !Contains(a + ", " + b, c) {
      ContainsConcat(a, ", ", c);
      ContainsConcat(a + ", ", b, c);
      assert !Contains(", ", c) by {
        assert ", "[0] == ',' && ", "[1] == ' ';
      }
    }
    assert "-+*/%"[0] == '-' && "-+*/%"[1] == '+' && "-+*/%"[2] == '*' && "-+*/%"[3] == '/' && "-+*/%"[4] == '%';
  }

  lemma MaxTables(env: Env, a: string, b: string)
    requires !HasOperator(a) && !HasOperator(b)
    ensures PlainName("max") && "max" !in PyMain.MainRules.members
    ensures Resolve(env, Name("max"), "max", [a, b]) == Ok("{" + a + ", " + b + "}.max")
    ensures Simple(Name(a)) && Simple(Name(b)) ==> SimpleText(Name(a)) == a && SimpleText(Name(b)) == b
  {
    assert Join([a, b], ", ") == a + ", " + b by {
      assert [a, b][1..] == [b];
    }
    PairHasNoOperator(a, b);
    assert "max" in MinMaxMethods;
    assert "{" + (a + ", " + b) + "}." + "max" == "{" + a + ", " + b + "}.max";
    assert !Contains("max", '.') by {
      assert "max"[0] == 'm' && "max"[1] == 'a' && "max"[2] == 'x';
    }
  }

  /** `max(a, b)` becomes `{a, b}.max`. */
  lemma MaxCall(env: Env, reg: TranslatorRegistry, st: St, a: string, b: string)
    requires env.mode != NoError && env.className.None? && !st.call
    requires Unshadowed(env, "max") && Registry.Standard(reg) && "max" !in env.functions
    requires Unrenamed(a) && Unrenamed(b) && a != "self"
    requires !HasOperator(a) && !HasOperator(b)
    ensures Lower(env, reg, st, Call(Name("max"), [Name(a), Name(b)], []), None) == Ok(Out("{" + a + ", " + b + "}.max", st.(funcArgsLen := 0)))
  {
    MaxTables(env, a, b);
    TwoNodes(env, reg, st, Name(a), Name(b));
    PlainCall(env, reg, st, "max", [Name(a), Name(b)], [a, b], [a, b], "{" + a + ", " + b + "}.max");
  }

  lemma LenName()
    ensures PlainName("len") && "len" !in PyMain.MainRules.members
  {
    assert !Contains("len", '.') by {
      assert "len"[0] == 'l' && "len"[1] == 'e' && "len"[2] == 'n';
    }
  }

  lemma LenTables(env: Env, x: string)
    ensures PlainName("len") && "len" !in PyMain.MainRules.members
    ensures Resolve(env, Name("len"), "len", [x]) == Ok(OpeFilter(x) + ".size")
  {
    LenName();
    assert Join([x], ", ") == x;
    assert "len" !in MinMaxMethods && "len" in ReverseMethods && ReverseMethods["len"] == "size";
    assert OpeFilter(x) + "." + "size" == OpeFilter(x) + ".size";
  }

  /** `len(x)` becomes `x.size`, the receiver parenthesised when it looks arithmetic. */
  lemma LenCall(env: Env, reg: TranslatorRegistry, st: St, x: string)
    requires env.mode != NoError && env.className.None? && !st.call
    requires Unshadowed(env, "len") && Registry.Standard(reg) && "len" !in env.functions
    requires Unrenamed(x) && x != "self"
    ensures Lower(env, reg, st, Call(Name("len"), [Name(x)], []), None) == Ok(Out(OpeFilter(x) + ".size", st.(funcArgsLen := 0)))
  {
    LenTables(env, x);
    OneName(env, reg, st, x);
    PlainCall(env, reg, st, "len", [Name(x)], [x], [x], OpeFilter(x) + ".size");
  }

  lemma FName()
    ensures PlainName("f") && "f" !in PyMain.MainRules.members
  {
    assert !Contains("f", '.') by {
      assert "f"[0] == 'f';
    }
  }

  lemma KeywordTables(env: Env, x: string)
    requires x != "self"
    requires "f" !in env.lambdaFunctions && "f" !in env.scope
    ensures PlainName("f") && "f" !in PyMain.MainRules.members
    ensures SimpleText(Constant(CInt(5))) == "5"
    ensures Usable([NoDefault, Named("b")])
    ensures Rewritten([x, "5"], [NoDefault, Named("b")]) == [x, "b: 5"]
    ensures Resolve(env, Name("f"), "f", [x, "b: 5"]) == Ok("f(" + x + ", b: 5)")
  {
    assert IntText(5) == "5";
    RewriteExample(x, "5");
    assert "b: " + "5" == "b: 5";
    assert Join([x, "b: 5"], ", ") == x + ", " + "b: 5" by {
      assert [x, "b: 5"][1..] == ["b: 5"];
    }
    assert "f"[0] != '@' && "f"[|"f"| - 1] != ')';
    assert "f" + "(" + (x + ", " + "b: 5") + ")" == "f(" + x + ", b: 5)";
    FName();
  }

  /**
   * `f(x, 5)` for `def f(a, b=...)` becomes `f(x, b: 5)`: the defaulted
   * position is passed by keyword.
   */
  lemma KeywordCall(env: Env, reg: TranslatorRegistry, st: St, x: string)
    requires env.mode != NoError && env.className.None? && !st.call
    requires Unshadowed(env, "f") && Registry.Standard(reg)
    requires "f" in env.functions && env.functions["f"] == [NoDefault, Named("b")]
    requires "f" !in env.lambdaFunctions && "f" !in env.scope
    requires Unrenamed(x) && x != "self"
    ensures Lower(env, reg, st, Call(Name("f"), [Name(x), Constant(CInt(5))], []), None) == Ok(Out("f(" + x + ", b: 5)", st.(funcArgsLen := 0)))
  {
    KeywordTables(env, x);
    TwoNodes(env, reg, st, Name(x), Constant(CInt(5)));
    PlainCall(env, reg, st, "f", [Name(x), Constant(CInt(5))], [x, "5"], [x, "b: 5"], "f(" + x + ", b: 5)");
  }

  lemma EmptyListLookup(reg: TranslatorRegistry)
    requires Registry.Standard(reg)
    ensures PlainName("list")
    ensures reg.FuncLookup("", "list") == Some(Rule("PythonMain", "list"))
  {
    Registry.RegisteredModules();
    assert !Contains("list", '.') by {
      assert "list"[0] == 'l' && "list"[1] == 'i' && "list"[2] == 's' && "list"[3] == 't';
    }
  }

  lemma EmptyListRule()
    ensures Registry.WantsBlock(Rule("PythonMain", "list"), CallInfo("list", [], [])) == Ok(false)
    ensures Registry.Apply(Rule("PythonMain", "list"), CallInfo("list", [], []), None) == Ok(EmptyList)
  {
    Registry.RegisteredModules();
  }

  lemma EmptyListTables(reg: TranslatorRegistry)
    requires Registry.Standard(reg)
    ensures PlainName("list")
    ensures reg.FuncLookup("", "list") == Some(Rule("PythonMain", "list"))
    ensures Registry.WantsBlock(Rule("PythonMain", "list"), CallInfo("list", [], [])) == Ok(false)
    ensures Registry.Apply(Rule("PythonMain", "list"), CallInfo("list", [], []), None) == Ok(EmptyList)
  {
    EmptyListLookup(reg);
    EmptyListRule();
  }

  lemma EmptyDictLookup(reg: TranslatorRegistry)
    requires Registry.Standard(reg)
    ensures PlainName("dict")
    ensures reg.FuncLookup("", "dict") == Some(Rule("PythonMain", "dict"))
  {
    Registry.RegisteredModules();
    assert !Contains("dict", '.') by {
      assert "dict"[0] == 'd' && "dict"[1] == 'i' && "dict"[2] == 'c' && "dict"[3] == 't';
    }
  }

  lemma EmptyDictRule()
    ensures Registry.WantsBlock(Rule("PythonMain", "dict"), CallInfo("dict", [], [])) == Ok(false)
    ensures Registry.Apply(Rule("PythonMain", "dict"), CallInfo("dict", [], []), None) == Ok(EmptyHash)
  {
    Registry.RegisteredModules();
  }

  lemma EmptyDictTables(reg: TranslatorRegistry)
    requires Registry.Standard(reg)
    ensures PlainName("dict")
    ensures reg.FuncLookup("", "dict") == Some(Rule("PythonMain", "dict"))
    ensures Registry.WantsBlock(Rule("PythonMain", "dict"), CallInfo("dict", [], [])) == Ok(false)
    ensures Registry.Apply(Rule("PythonMain", "dict"), CallInfo("dict", [], []), None) == Ok(EmptyHash)
  {
    EmptyDictLookup(reg);
    EmptyDictRule();
  }

  /**
   * `list()` is the empty array: `[] of T` under an annotation `List[T]`,
   * otherwise `[]` with a warning in warning mode.
   */
  lemma EmptyListCall(env: Env, reg: TranslatorRegistry, st: St, crytype: Option<Node>)
    requires env.mode != NoError && env.className.None? && !st.call
    requires Unshadowed(env, "list") && Registry.Standard(reg) && env.rules == Registry.Apply
    ensures Lower(env, reg, st, Call(Name("list"), [], []), crytype) == EmptyListText(env, st.(funcArgsLen := 0), crytype)
  {
    EmptyListTables(reg);
    RuledNoArgCall(env, reg, st, "list", Rule("PythonMain", "list"), crytype);
    RuleOutcome(env, reg, st.(funcArgsLen := 0), Call(Name("list"), [], []), Rule("PythonMain", "list"), CallInfo("list", [], []), crytype, EmptyList);
  }

  /** `dict()` is the empty hash: `{} of K => V` under an annotation `Dict[K, V]`, otherwise `{}` with a warning. */
  lemma EmptyDictCall(env: Env, reg: TranslatorRegistry, st: St, crytype: Option<Node>)
    requires env.mode != NoError && env.className.None? && !st.call
    requires Unshadowed(env, "dict") && Registry.Standard(reg) && env.rules == Registry.Apply
    ensures Lower(env, reg, st, Call(Name("dict"), [], []), crytype) == EmptyHashText(env, st.(funcArgsLen := 0), crytype)
  {
    EmptyDictTables(reg);
    RuledNoArgCall(env, reg, st, "dict", Rule("PythonMain", "dict"), crytype);
    RuleOutcome(env, reg, st.(funcArgsLen := 0), Call(Name("dict"), [], []), Rule("PythonMain", "dict"), CallInfo("dict", [], []), crytype, EmptyHash);
  }

  // ---------------------------------------------------------------------
  // Subscripts, comparisons, tuples and unsupported nodes

  /** An absent slice bound, or one that is a `Simple` node. */
  predicate SimpleBound(o: Option<Node>)
  {
    o.Some? ==> Simple(o.value)
  }

  function BoundText(o: Option<Node>): (r: Option<string>)
    requires SimpleBound(o)
    ensures r.Some? <==> o.Some?
  {
    if o.Some? then Some(SimpleText(o.value)) else None
  }

  lemma SimpleSliceParts(env: Env, reg: TranslatorRegistry, st: St, s: Node)
    requires env.mode != NoError && s.Slice?
    requires SimpleBound(s.lower) && SimpleBound(s.upper) && SimpleBound(s.step)
    ensures LowerSliceParts(env, reg, st, s) == Ok(SliceParts(BoundText(s.lower), BoundText(s.upper), BoundText(s.step), st))
  {
    if s.lower.Some? {
      SimpleLowers(env, reg, st, s.lower.value);
    }
    if s.upper.Some? {
      SimpleLowers(env, reg, st, s.upper.value);
    }
    if s.step.Some? {
      SimpleLowers(env, reg, st, s.step.value);
    }
  }

  /**
   * A slice of a name is the range subscript of `process_slice_with_step`,
   * with the stepping suffix exactly when there is a step; the symbol flag
   * ends cleared.
   */
  lemma SliceOfName(env: Env, reg: TranslatorRegistry, st: St, x: string, s: Node)
    requires env.mode != NoError && s.Slice? && NameText(x, st.call) == x
    requires SimpleBound(s.lower) && SimpleBound(s.upper) && SimpleBound(s.step)
    ensures Lower(env, reg, st, Subscript(Name(x), s), None) ==
      Ok(Out(SliceSubscript(x, BoundText(s.lower), BoundText(s.upper), BoundText(s.step)), st.(symbol := false)))
  {
    NameLowers(env, reg, st.(symbol := false), x);
    SimpleSliceParts(env, reg, st.(symbol := false), s);
  }

  lemma XSliceTables()
    ensures NameText("x", false) == "x"
    ensures SimpleBound(Some(Constant(CInt(3)))) && BoundText(Some(Constant(CInt(3)))) == Some("3")
    ensures SliceSubscript("x", Some("3"), None, None) == "x[3..-1]"
  {
    assert IntText(3) == "3";
    SliceExample();
  }

  /** The documented example: `x[3:]` becomes `x[3..-1]`. */
  lemma XSlice(env: Env, reg: TranslatorRegistry, st: St)
    requires env.mode != NoError && !st.call
    ensures Lower(env, reg, st, Subscript(Name("x"), Slice(Some(Constant(CInt(3))), None, None)), None) == Ok(Out("x[3..-1]", st.(symbol := false)))
  {
    XSliceTables();
    SliceOfName(env, reg, st, "x", Slice(Some(Constant(CInt(3))), None, None));
  }

  /** A comparison of `Simple` operands is the chain of its rendered pairs, the state untouched. */
  lemma CompareOfSimple(env: Env, reg: TranslatorRegistry, st: St, left: Node, ops: seq<CmpOp>, comps: seq<Node>)
    requires env.mode != NoError && Simple(left)
    requires forall i :: 0 <= i < |comps| ==> Simple(comps[i])
    requires |ops| == |comps| > 0
    ensures Lower(env, reg, st, Compare(left, ops, comps), None) == Ok(Out(Chain(Pairs(SimpleText(left), ops, SimpleTexts(comps))), st))
  {
    SimpleLowers(env, reg, st, left);
    SimpleArgs(env, reg, st, comps);
  }

  /** A tuple of `Simple` elements is rendered in the current tuple mode, or fails as that mode does. */
  lemma TupleOfSimple(env: Env, reg: TranslatorRegistry, st: St, elts: seq<Node>)
    requires env.mode != NoError
    requires forall i :: 0 <= i < |elts| ==> Simple(elts[i])
    ensures TupleText(st.tupleType, SimpleTexts(elts)).Ok? ==>
      Lower(env, reg, st, Tuple(elts), None) == Ok(Out(TupleText(st.tupleType, SimpleTexts(elts)).value, st))
    ensures TupleText(st.tupleType, SimpleTexts(elts)).Err? ==> Lower(env, reg, st, Tuple(elts), None).Err?
  {
    SimpleArgs(env, reg, st, elts);
  }

  /**
   * `visit` on a node kind without a visitor: an error in stop mode, an
   * empty text and a warning in warning mode, an empty text in the
   * module pass.
   */
  lemma UnsupportedNode(env: Env, reg: TranslatorRegistry, st: St, kind: string)
    ensures env.mode == Stop ==> Lower(env, reg, st, Other(kind), None) == Err(ConvertError("Syntax not supported (" + kind + ")"))
    ensures env.mode == Warning ==>
      Lower(env, reg, st, Other(kind), None) == Ok(Out("", st.(severity := Raise(st.severity, IncludeWarning))))
    ensures env.mode == NoError ==> Lower(env, reg, st, Other(kind), None) == Ok(Out("", st))
  {
  }

  // ---------------------------------------------------------------------
  // dict([(k, v), ...])

  /** A two-element tuple of `Simple` nodes: a key-value pair written as a tuple. */
  predicate PairNode(e: Node)
  {
    e.Tuple? && |e.elts| == 2 && Simple(e.elts[0]) && Simple(e.elts[1])
  }

  function PairText(e: Node): string
    requires PairNode(e)
  {
    SimpleText(e.elts[0]) + " => " + SimpleText(e.elts[1])
  }

  function PairTexts(es: seq<Node>): (r: seq<string>)
    requires forall i :: 0 <= i < |es| ==> PairNode(es[i])
    ensures |r| == |es|
    ensures forall i :: 0 <= i < |es| ==> r[i] == PairText(es[i])
  {
    seq(|es|, i requires 0 <= i < |es| => PairText(es[i]))
  }

  lemma PairTupleText(e: Node)
    requires PairNode(e)
    ensures TupleText("=>", SimpleTexts(e.elts)) == Ok(PairText(e))
  {
    assert e.elts == [e.elts[0], e.elts[1]];
    assert e.elts[1..] == [e.elts[1]];
    assert SimpleTexts(e.elts) == [SimpleText(e.elts[0]), SimpleText(e.elts[1])];
  }

  /** In `=>` mode a pair tuple renders as `k => v`. */
  lemma PairLowers(env: Env, reg: TranslatorRegistry, st: St, e: Node)
    requires env.mode != NoError && PairNode(e) && st.tupleType == "=>"
    ensures Lower(env, reg, st, e, None) == Ok(Out(PairText(e), st))
  {
    PairTupleText(e);
    TupleOfSimple(env, reg, st, e.elts);
  }

  lemma TupleModeTwice(st: St)
    ensures st.(tupleType := "=>").(tupleType := "[]") == st.(tupleType := "[]")
    ensures st.(tupleType := "[]").(tupleType := "=>") == st.(tupleType := "=>")
  {
  }

  lemma PairTextsCons(elts: seq<Node>)
    requires |elts| > 0 && forall i :: 0 <= i < |elts| ==> PairNode(elts[i])
    ensures forall i :: 0 <= i < |elts[1..]| ==> PairNode(elts[1..][i])
    ensures PairTexts(elts) == [PairText(elts[0])] + PairTexts(elts[1..])
  {
    forall i | 0 <= i < |elts[1..]| ensures PairNode(elts[1..][i]) {
      assert elts[1..][i] == elts[i + 1];
    }
    var whole, tail := PairTexts(elts), PairTexts(elts[1..]);
    forall i | 0 <= i < |whole| ensures whole[i] == ([PairText(elts[0])] + tail)[i] {
      if i > 0 {
        assert tail[i - 1] == PairText(elts[1..][i - 1]);
      }
    }
    assert whole == [PairText(elts[0])] + tail;
  }

  /** The first pair of the element loop: `k => v`, then the rest in mode `[]`. */
  lemma DictOfPairsStep(env: Env, reg: TranslatorRegistry, st: St, elts: seq<Node>)
    requires env.mode != NoError && |elts| > 0 && PairNode(elts[0])
    ensures LowerDictOfList(env, reg, st, elts)
         == match LowerDictOfList(env, reg, st.(tupleType := "[]"), elts[1..])
            case Ok(t) => Ok(Outs([PairText(elts[0])] + t.texts, t.st))
            case Err(e) => Err(e)
  {
    PairLowers(env, reg, st.(tupleType := "=>"), elts[0]);
    TupleModeTwice(st);
  }

  /**
   * The element loop of `dict([...])` over pair tuples: one `k => v` per
   * pair, in order, and the tuple mode left at `[]`.
   */
  lemma {:induction false} DictOfPairs(env: Env, reg: TranslatorRegistry, st: St, elts: seq<Node>)
    requires env.mode != NoError
    requires forall i :: 0 <= i < |elts| ==> PairNode(elts[i])
    ensures LowerDictOfList(env, reg, st, elts) == Ok(Outs(PairTexts(elts), if |elts| == 0 then st else st.(tupleType := "[]")))
    decreases |elts|
  {
    if |elts| > 0 {
      var s2 := st.(tupleType := "[]");
      DictOfPairsStep(env, reg, st, elts);
      PairTextsCons(elts);
      DictOfPairs(env, reg, s2, elts[1..]);
      TupleModeTwice(s2);
    }
  }

  // ---------------------------------------------------------------------
  // Attributes

  /**
   * `x.attr` outside any class, for a name `x` that is not `self`, not a
   * class and not a module whose rule set renames `attr`: the name, a dot
   * and the attribute after the method and argument-form tables.
   */
  lemma NameAttribute(env: Env, reg: TranslatorRegistry, st: St, x: string, attr: string)
    requires x != "self" && Unrenamed(x) && x !in env.moduleAliases
    requires env.className.None? && x !in env.classNames
    requires attr != "" && reg.AttrLookup(x, attr).None?
    requires ArgFormRename(MethodRename(attr), st.funcArgsLen) != ""
    ensures Lower(env, reg, st, Attribute(Name(x), attr), None) ==
      Ok(Out(OpeFilter(x) + "." + ArgFormRename(MethodRename(attr), st.funcArgsLen), st))
  {
    var n := Attribute(Name(x), attr);
    var renamed := ArgFormRename(MethodRename(attr), st.funcArgsLen);
    UnrenamedText(x, st.call);
    assert Dealias(env, NameText(x, st.call)) == x;
    assert LowerAttribute(env, reg, st, n) == NameAttr(env, reg, st, n, renamed);
    assert NameAttr(env, reg, st, n, renamed) == GenericAttr(env, reg, st, n, renamed);
    assert Lower(env, reg, st, Name(x), None) == Ok(Out(x, st));
  }

  /** An attribute of an attribute: the inner text, parenthesised if arithmetic, a dot and the renamed attribute. */
  lemma AttributeOfAttribute(env: Env, reg: TranslatorRegistry, st: St, v: Node, attr: string, text: string, vst: St)
    requires v.Attribute? && Registry.Standard(reg)
    requires ArgFormRename(MethodRename(attr), st.funcArgsLen) != ""
    requires Lower(env, reg, st, v, None) == Ok(Out(text, vst))
    ensures Lower(env, reg, st, Attribute(v, attr), None) ==
      Ok(Out(OpeFilter(text) + "." + ArgFormRename(MethodRename(attr), st.funcArgsLen), vst))
  {
    var n := Attribute(v, attr);
    var renamed := ArgFormRename(MethodRename(attr), st.funcArgsLen);
    Registry.RegisteredModules();
    assert reg.AttrLookup("", attr).None?;
    assert LowerAttribute(env, reg, st, n) == GenericAttr(env, reg, st, n, renamed);
  }

  /**
   * `self.a` inside a class with recorded bases, when `a` is neither a
   * method of the class nor inherited from a recorded base: the instance
   * variable `@a`.
   */
  lemma SelfField(env: Env, reg: TranslatorRegistry, st: St, a: string)
    requires env.className.Some? && env.className.value in env.basesOf
    requires a !in env.classFunctions && a !in env.selfFunctions
    requires !Inherits(env, env.basesOf[env.className.value], a)
    ensures Lower(env, reg, st, Attribute(Name("self"), a), None) == Ok(Out("@" + a, st))
  {
    var n := Attribute(Name("self"), a);
    assert LowerAttribute(env, reg, st, n) == NameAttr(env, reg, st, n, a);
  }

  /** `super().m` inside the method `m` is `super`, for a name no attribute table renames. */
  lemma SuperOfMethod(env: Env, reg: TranslatorRegistry, st: St, m: string)
    requires Registry.Standard(reg)
    requires |env.functionStack| > 0 && env.functionStack[|env.functionStack| - 1] == m
    requires m !in AttributeMap && m !in AttributeNotArg && m !in AttributeWithArg
    ensures Lower(env, reg, st, Attribute(Call(Name("super"), [], []), m), None) == Ok(Out("super", st))
  {
    var n := Attribute(Call(Name("super"), [], []), m);
    Registry.RegisteredModules();
    assert reg.AttrLookup("", m).None?;
    assert ArgFormRename(MethodRename(m), st.funcArgsLen) == m;
    assert LowerAttribute(env, reg, st, n) == SuperRef(env, st, m);
  }

  lemma SixTables(reg: TranslatorRegistry, call: bool)
    requires Registry.Standard(reg)
    ensures NameText("six", call) == "six"
    ensures reg.AttrLookup("six", "PY3") == Some("true")
  {
    Registry.StandardLookups(reg);
  }

  /** `six.PY3` is `true`: the `six` rule set renames the attribute. */
  lemma SixPY3(env: Env, reg: TranslatorRegistry, st: St)
    requires Registry.Standard(reg) && "six" !in env.moduleAliases
    ensures Lower(env, reg, st, Attribute(Name("six"), "PY3"), None) == Ok(Out("true", st))
  {
    SixTables(reg, st.call);
    assert Dealias(env, NameText("six", st.call)) == "six";
  }

  // ---------------------------------------------------------------------
  // Calls that a module's rule set claims

  /**
   * A call outside any class, without keywords, whose callee is not a
   * call and whose arguments leave the state alone: when the callee text
   * is not a class, not a function-to-method name and has no defaults
   * table (or there are no arguments), and the registry holds a rule for
   * its module and name, that rule decides.
   */
  lemma RuledCall(env: Env, reg: TranslatorRegistry, st: St, callee: Node, args: seq<Node>, texts: seq<string>, func: string, rule: Rule, crytype: Option<Node>)
    requires env.mode != NoError && env.className.None? && !st.call && !callee.Call?
    requires LowerAll(env, reg, st, args) == Ok(Outs(texts, st))
    requires Lower(env, reg, st.(funcArgsLen := |texts|, call := true), callee, None) ==
      Ok(Out(func, st.(funcArgsLen := |texts|, call := true)))
    requires func !in env.classNames && func !in MethodsMapMiddle
    requires DefaultsFor(env, func).slots.None? || |texts| == 0
    requires |texts| > 0 ==> texts[0] != "self"
    requires reg.FuncLookup(Dealias(env, SetFunc(func).0), SetFunc(func).1) == Some(rule)
    ensures Lower(env, reg, st, Call(callee, args, []), crytype) ==
      ApplyRule(env, reg, st.(funcArgsLen := 0), Call(callee, args, []), rule, CallInfo(func, texts, args), crytype)
  {
    var n := Call(callee, args, []);
    var fst := st.(funcArgsLen := |texts|, call := true);
    CallIsLowerCall(env, reg, st, n, crytype);
    CallSteps(env, reg, st, n, texts, st, func, fst, crytype);
    CalleeState(st, |texts|);
    ResetCount(st, |texts|);
    NoKeywords(env, reg, st.(funcArgsLen := 0));
    var d := DefaultsFor(env, func);
    assert DropSelf(d.isStatic, texts) == texts;
    assert (if d.slots.Some? then Rewritten(texts, d.slots.value) else texts) == texts;
    assert texts + [] == texts;
  }

  /** A rule that takes its first argument as a block: the rendered lambda is handed to the rule, whose text is the call's. */
  lemma BlockRuleOutcome(env: Env, reg: TranslatorRegistry, st: St, n: Node, rule: Rule, info: CallInfo, crytype: Option<Node>, block: string, t: string)
    requires n.Call? && info.nodeArgs == n.args
    requires Registry.WantsBlock(rule, info) == Ok(true)
    requires LowerLambdaBlock(env, reg, st, n.args[0]) == Ok(Out(block, st))
    requires env.rules(rule, info, Some(block)) == Ok(Text(t))
    ensures ApplyRule(env, reg, st, n, rule, info, crytype) == Ok(Out(t, st))
  {
  }

  lemma SysNames()
    ensures !Contains("sys", '.') && !Contains("exit", '.') && !HasOperator("sys")
    ensures "sys" + "." + "exit" == "sys.exit"
  {
    assert "sys"[0] == 's' && "sys"[1] == 'y' && "sys"[2] == 's';
    assert "exit"[0] == 'e' && "exit"[1] == 'x' && "exit"[2] == 'i' && "exit"[3] == 't';
  }

  lemma SysTexts()
    ensures Unrenamed("sys") && OpeFilter("sys") == "sys"
    ensures ArgFormRename(MethodRename("exit"), 0) == "exit"
    ensures "sys.exit" !in MethodsMapMiddle
    ensures SetFunc("sys.exit") == ("sys", "exit")
  {
    SysUnrenamed();
    ExitUnrenamed();
    SysExitNotMiddle();
    SysExitSplits();
  }

  lemma SysUnrenamed()
    ensures Unrenamed("sys") && OpeFilter("sys") == "sys"
  {
    SysNames();
  }

  lemma ExitUnrenamed()
    ensures ArgFormRename(MethodRename("exit"), 0) == "exit"
  {
  }

  lemma SysExitNotMiddle()
    ensures "sys.exit" !in MethodsMapMiddle
  {
  }

  lemma SysExitSplits()
    ensures SetFunc("sys.exit") == ("sys", "exit")
  {
    SysNames();
    SetFuncOneDot("sys", "exit");
  }

  lemma SysLookups(reg: TranslatorRegistry)
    requires Registry.Standard(reg)
    ensures reg.AttrLookup("sys", "exit").None?
    ensures reg.FuncLookup("sys", "exit") == Some(Rule("PySys", "exit"))
  {
    Registry.RegisteredModules();
  }

  lemma SysExitRule()
    ensures Registry.WantsBlock(Rule("PySys", "exit"), CallInfo("sys.exit", [], [])) == Ok(false)
    ensures Registry.Apply(Rule("PySys", "exit"), CallInfo("sys.exit", [], []), None) == Ok(Text("exit()"))
  {
  }

  lemma SysExitCallee(env: Env, reg: TranslatorRegistry, st: St)
    requires Registry.Standard(reg) && env.className.None? && st.funcArgsLen == 0
    requires "sys" !in env.moduleAliases && "sys" !in env.classNames
    ensures Lower(env, reg, st, Attribute(Name("sys"), "exit"), None) == Ok(Out("sys.exit", st))
  {
    SysTexts();
    SysLookups(reg);
    SysNames();
    NameAttribute(env, reg, st, "sys", "exit");
  }

  /** `sys.exit()` is `exit()` outside any class. */
  lemma SysExitCall(env: Env, reg: TranslatorRegistry, st: St)
    requires env.mode != NoError && env.className.None? && !st.call
    requires Registry.Standard(reg) && env.rules == Registry.Apply
    requires "sys" !in env.moduleAliases && "sys" !in env.classNames && "sys.exit" !in env.classNames
    ensures Lower(env, reg, st, Call(Attribute(Name("sys"), "exit"), [], []), None) == Ok(Out("exit()", st.(funcArgsLen := 0)))
  {
    var callee := Attribute(Name("sys"), "exit");
    var info := CallInfo("sys.exit", [], []);
    SysTexts();
    SysLookups(reg);
    SysExitRule();
    SysExitCallee(env, reg, st.(funcArgsLen := 0, call := true));
    NoArgs(env, reg, st);
    RuledCall(env, reg, st, callee, [], [], "sys.exit", Rule("PySys", "exit"), None);
    RuleOutcome(env, reg, st.(funcArgsLen := 0), Call(callee, [], []), Rule("PySys", "exit"), info, None, Text("exit()"));
  }

  lemma OsNames()
    ensures !Contains("os", '.') && !Contains("path", '.') && !Contains("join", '.')
    ensures !HasOperator("os") && !HasOperator("os.path")
    ensures "os" + "." + "path" == "os.path" && "os.path" + "." + "join" == "os.path.join"
    ensures "os" + "." + "path" + "." + "join" == "os.path.join"
    ensures "os" + ['.'] + "path.join" == "os.path.join"
  {
    assert "os"[0] == 'o' && "os"[1] == 's';
    assert "path"[0] == 'p' && "path"[1] == 'a' && "path"[2] == 't' && "path"[3] == 'h';
    assert "join"[0] == 'j' && "join"[1] == 'o' && "join"[2] == 'i' && "join"[3] == 'n';
    assert "os.path"[0] == 'o' && "os.path"[1] == 's' && "os.path"[2] == '.' && "os.path"[3] == 'p';
    assert "os.path"[4] == 'a' && "os.path"[5] == 't' && "os.path"[6] == 'h';
  }

  lemma OsUnrenamed()
    ensures Unrenamed("os") && OpeFilter("os") == "os" && OpeFilter("os.path") == "os.path"
  {
    OsNames();
  }

  lemma PathJoinUnrenamed()
    ensures ArgFormRename(MethodRename("path"), 2) == "path" && ArgFormRename(MethodRename("join"), 2) == "join"
  {
  }

  lemma OsPathJoinNotMiddle()
    ensures "os.path.join" !in MethodsMapMiddle
  {
  }

  lemma OsPathJoinSplits(env: Env)
    requires "os" !in env.classesClassFunctionsArgs && "os" !in env.classesSelfFunctionsArgs
    ensures DefaultsFor(env, "os.path.join").slots.None?
    ensures SetFunc("os.path.join") == ("os.path", "join")
  {
    OsNames();
    SetFuncTwoDots("os", "path", "join");
    SplitFirstAfter("os", "path.join", '.');
  }

  lemma OsLookups(reg: TranslatorRegistry)
    requires Registry.Standard(reg)
    ensures reg.AttrLookup("os", "path").None?
    ensures reg.FuncLookup("os.path", "join") == Some(Rule("OsPath", "join"))
  {
    Registry.OsIsNumpys();
    Registry.StandardLookups(reg);
  }

  lemma OsPathJoinTables(env: Env, reg: TranslatorRegistry)
    requires Registry.Standard(reg)
    requires "os" !in env.classesClassFunctionsArgs && "os" !in env.classesSelfFunctionsArgs
    ensures Unrenamed("os") && OpeFilter("os") == "os" && OpeFilter("os.path") == "os.path"
    ensures ArgFormRename(MethodRename("path"), 2) == "path" && ArgFormRename(MethodRename("join"), 2) == "join"
    ensures reg.AttrLookup("os", "path").None?
    ensures "os.path.join" !in MethodsMapMiddle
    ensures DefaultsFor(env, "os.path.join").slots.None?
    ensures SetFunc("os.path.join") == ("os.path", "join")
    ensures reg.FuncLookup("os.path", "join") == Some(Rule("OsPath", "join"))
  {
    OsUnrenamed();
    PathJoinUnrenamed();
    OsPathJoinNotMiddle();
    OsPathJoinSplits(env);
    OsLookups(reg);
  }

  lemma OsPathJoinRule(a: string, b: string, args: seq<Node>)
    ensures Registry.WantsBlock(Rule("OsPath", "join"), CallInfo("os.path.join", [a, b], args)) == Ok(false)
    ensures Registry.Apply(Rule("OsPath", "join"), CallInfo("os.path.join", [a, b], args), None) == Ok(Text("File.join(" + a + ", " + b + ")"))
  {
    assert [a, b][1..] == [b];
    assert Join([a, b], ", ") == a + ", " + b;
    assert "File." + "join" + "(" + (a + ", " + b) + ")" == "File.join(" + a + ", " + b + ")";
  }

  lemma OsPathCallee(env: Env, reg: TranslatorRegistry, st: St)
    requires Registry.Standard(reg) && env.className.None? && st.funcArgsLen == 2
    requires "os" !in env.moduleAliases && "os" !in env.classNames
    requires "os" !in env.classesClassFunctionsArgs && "os" !in env.classesSelfFunctionsArgs
    ensures Lower(env, reg, st, Attribute(Attribute(Name("os"), "path"), "join"), None) == Ok(Out("os.path.join", st))
  {
    OsPathJoinTables(env, reg);
    OsNames();
    NameAttribute(env, reg, st, "os", "path");
    AttributeOfAttribute(env, reg, st, Attribute(Name("os"), "path"), "join", "os.path", st);
  }

  /** `os.path.join(a, b)` is `File.join(a, b)` outside any class. */
  lemma OsPathJoinCall(env: Env, reg: TranslatorRegistry, st: St, a: string, b: string)
    requires env.mode != NoError && env.className.None? && !st.call
    requires Registry.Standard(reg) && env.rules == Registry.Apply
    requires "os" !in env.moduleAliases && "os.path" !in env.moduleAliases
    requires "os" !in env.classNames && "os.path.join" !in env.classNames
    requires "os" !in env.classesClassFunctionsArgs && "os" !in env.classesSelfFunctionsArgs
    requires Unrenamed(a) && Unrenamed(b) && a != "self"
    ensures Lower(env, reg, st, Call(Attribute(Attribute(Name("os"), "path"), "join"), [Name(a), Name(b)], []), None) ==
      Ok(Out("File.join(" + a + ", " + b + ")", st.(funcArgsLen := 0)))
  {
    var callee := Attribute(Attribute(Name("os"), "path"), "join");
    var args := [Name(a), Name(b)];
    var info := CallInfo("os.path.join", [a, b], args);
    OsPathJoinTables(env, reg);
    OsPathJoinRule(a, b, args);
    OsPathCallee(env, reg, st.(funcArgsLen := 2, call := true));
    TwoNodes(env, reg, st, Name(a), Name(b));
    RuledCall(env, reg, st, callee, args, [a, b], "os.path.join", Rule("OsPath", "join"), None);
    RuleOutcome(env, reg, st.(funcArgsLen := 0), Call(callee, args, []), Rule("OsPath", "join"), info, None, Text("File.join(" + a + ", " + b + ")"));
  }

  // ---------------------------------------------------------------------
  // Lambdas

  /**
   * A lambda with a `Simple` body: `->(params) { body }` as an expression,
   * `{ |params| body }` as a block; neither changes the state.
   */
  lemma LambdaOfSimple(env: Env, reg: TranslatorRegistry, st: St, params: Arguments, body: Node)
    requires env.mode != NoError && Simple(body)
    ensures Lower(env, reg, st, Lambda(params, body), None) ==
      Ok(Out("->(" + ParamsText(params) + ") { " + SimpleText(body) + " }", st))
    ensures LowerLambdaBlock(env, reg, st, Lambda(params, body)) ==
      Ok(Out("{ |" + ParamsText(params) + "| " + SimpleText(body) + " }", st))
  {
    SimpleLowers(env, reg, st, body);
  }

  /** Two nodes whose visits leave the state alone render in order. */
  lemma TwoLowered(env: Env, reg: TranslatorRegistry, st: St, a: Node, b: Node, ta: string, tb: string)
    requires Lower(env, reg, st, a, None) == Ok(Out(ta, st))
    requires Lower(env, reg, st, b, None) == Ok(Out(tb, st))
    ensures LowerAll(env, reg, st, [a, b]) == Ok(Outs([ta, tb], st))
  {
    var ns := [a, b];
    assert ns[0] == a && ns[1..] == [b];
    assert [b][1..] == [];
    assert [b][0] == b;
    assert LowerAll(env, reg, st, [b][1..]) == Ok(Outs([], st));
    assert [tb] + [] == [tb];
    assert LowerAll(env, reg, st, [b]) == Ok(Outs([tb], st));
    assert [ta] + [tb] == [ta, tb];
  }

  lemma MapName()
    ensures NameText("map", true) == "map" && "map" !in MethodsMapMiddle
    ensures SetFunc("map") == ("", "map")
  {
    assert !Contains("map", '.') by {
      assert "map"[0] == 'm' && "map"[1] == 'a' && "map"[2] == 'p';
    }
    SetFuncSplitsAtLastDot("map");
  }

  lemma MapLookup(reg: TranslatorRegistry)
    requires Registry.Standard(reg)
    ensures reg.FuncLookup("", "map") == Some(Rule("PythonMain", "map"))
  {
    Registry.RegisteredModules();
  }

  lemma MapTables(env: Env, reg: TranslatorRegistry)
    requires Registry.Standard(reg) && Unshadowed(env, "map") && "map" !in env.functions
    ensures NameText("map", true) == "map" && "map" !in MethodsMapMiddle
    ensures DefaultsFor(env, "map").slots.None?
    ensures SetFunc("map") == ("", "map")
    ensures reg.FuncLookup("", "map") == Some(Rule("PythonMain", "map"))
  {
    MapName();
    MapLookup(reg);
    assert !Contains("map", '.') by {
      assert "map"[0] == 'm' && "map"[1] == 'a' && "map"[2] == 'p';
    }
  }

  lemma MapRule(info: CallInfo, block: string)
    requires |info.args| == 2 && |info.nodeArgs| > 0 && info.nodeArgs[0].Lambda? && info.funcstr == "map"
    ensures Registry.WantsBlock(Rule("PythonMain", "map"), info) == Ok(true)
    ensures Registry.Apply(Rule("PythonMain", "map"), info, Some(block)) == Ok(Text(info.args[1] + ".map " + block))
  {
    assert info.args[1] + "." + "map" + " " + block == info.args[1] + ".map " + block;
  }

  lemma MapArgs(env: Env, reg: TranslatorRegistry, st: St, params: Arguments, body: Node, xs: string)
    requires env.mode != NoError && Simple(body) && Unrenamed(xs)
    ensures LowerAll(env, reg, st, [Lambda(params, body), Name(xs)]) ==
      Ok(Outs(["->(" + ParamsText(params) + ") { " + SimpleText(body) + " }", xs], st))
  {
    LambdaOfSimple(env, reg, st, params, body);
    SimpleLowers(env, reg, st, Name(xs));
    TwoLowered(env, reg, st, Lambda(params, body), Name(xs), "->(" + ParamsText(params) + ") { " + SimpleText(body) + " }", xs);
  }

  lemma MapCallHead(env: Env, reg: TranslatorRegistry, st: St, args: seq<Node>, texts: seq<string>)
    requires env.mode != NoError && env.className.None? && !st.call
    requires Registry.Standard(reg) && Unshadowed(env, "map") && "map" !in env.functions
    requires LowerAll(env, reg, st, args) == Ok(Outs(texts, st))
    requires |texts| > 0 ==> texts[0] != "self"
    ensures Lower(env, reg, st, Call(Name("map"), args, []), None) ==
      ApplyRule(env, reg, st.(funcArgsLen := 0), Call(Name("map"), args, []), Rule("PythonMain", "map"), CallInfo("map", texts, args), None)
  {
    MapTables(env, reg);
    NameLowers(env, reg, st.(funcArgsLen := |texts|, call := true), "map");
    RuledCall(env, reg, st, Name("map"), args, texts, "map", Rule("PythonMain", "map"), None);
  }

  lemma MapApply(env: Env, reg: TranslatorRegistry, st: St, params: Arguments, body: Node, xs: string, lt: string)
    requires env.mode != NoError && env.rules == Registry.Apply && Simple(body)
    ensures ApplyRule(env, reg, st, Call(Name("map"), [Lambda(params, body), Name(xs)], []), Rule("PythonMain", "map"),
        CallInfo("map", [lt, xs], [Lambda(params, body), Name(xs)]), None) ==
      Ok(Out(xs + ".map " + "{ |" + ParamsText(params) + "| " + SimpleText(body) + " }", st))
  {
    var args := [Lambda(params, body), Name(xs)];
    var block := "{ |" + ParamsText(params) + "| " + SimpleText(body) + " }";
    var info := CallInfo("map", [lt, xs], args);
    MapRule(info, block);
    LambdaOfSimple(env, reg, st, params, body);
    BlockRuleOutcome(env, reg, st, Call(Name("map"), args, []), Rule("PythonMain", "map"), info, None, block, xs + ".map " + block);
    assert xs + ".map " + block == xs + ".map " + "{ |" + ParamsText(params) + "| " + SimpleText(body) + " }";
  }

  /** `map(lambda params: body, xs)` is `xs.map { |params| body }` outside any class. */
  lemma MapLambdaCall(env: Env, reg: TranslatorRegistry, st: St, params: Arguments, body: Node, xs: string)
    requires env.mode != NoError && env.className.None? && !st.call
    requires Registry.Standard(reg) && env.rules == Registry.Apply
    requires Unshadowed(env, "map") && "map" !in env.functions
    requires Simple(body) && Unrenamed(xs)
    ensures Lower(env, reg, st, Call(Name("map"), [Lambda(params, body), Name(xs)], []), None) ==
      Ok(Out(xs + ".map { |" + ParamsText(params) + "| " + SimpleText(body) + " }", st.(funcArgsLen := 0)))
  {
    var args := [Lambda(params, body), Name(xs)];
    var lt := "->(" + ParamsText(params) + ") { " + SimpleText(body) + " }";
    MapArgs(env, reg, st, params, body, xs);
    MapTexts(xs, ParamsText(params), SimpleText(body));
    MapCallHead(env, reg, st, args, [lt, xs]);
    MapApply(env, reg, st.(funcArgsLen := 0), params, body, xs, lt);
  }

  lemma MapTexts(xs: string, p: string, b: string)
    ensures "->(" + p + ") { " + b + " }" != "self"
    ensures xs + ".map " + "{ |" + p + "| " + b + " }" == xs + ".map { |" + p + "| " + b + " }"
  {
    assert ("->(" + p + ") { " + b + " }")[0] == '-';
  }

  lemma IdentityLambdaTables()
    ensures Simple(Name("x")) && SimpleText(Name("x")) == "x"
    ensures ParamsText(Arguments([Arg("x", None)], None, [], [], None, [])) == "x"
  {
    var p := Arguments([Arg("x", None)], None, [], [], None, []);
    assert seq(|p.args|, i requires 0 <= i < |p.args| => p.args[i].name) == ["x"];
    assert ["x"] + [] == ["x"];
  }

  /** `map(lambda x: x, xs)` is `xs.map { |x| x }`. */
  lemma MapIdentityCall(env: Env, reg: TranslatorRegistry, st: St, xs: string)
    requires env.mode != NoError && env.className.None? && !st.call
    requires Registry.Standard(reg) && env.rules == Registry.Apply
    requires Unshadowed(env, "map") && "map" !in env.functions && Unrenamed(xs)
    ensures Lower(env, reg, st, Call(Name("map"), [Lambda(Arguments([Arg("x", None)], None, [], [], None, []), Name("x")), Name(xs)], []), None) ==
      Ok(Out(xs + ".map { |x| x }", st.(funcArgsLen := 0)))
  {
    IdentityLambdaTables();
    MapLambdaCall(env, reg, st, Arguments([Arg("x", None)], None, [], [], None, []), Name("x"), xs);
    IdentityMapText(xs);
  }

  lemma IdentityMapText(xs: string)
    ensures xs + ".map { |" + "x" + "| " + "x" + " }" == xs + ".map { |x| x }"
  {
    assert ".map { |" + "x" + "| " + "x" + " }" == ".map { |x| x }";
  }

  // ---------------------------------------------------------------------
  // Dict displays

  /** Keys and values of equal number, every one a `Simple` node. */
  predicate SimpleDict(keys: seq<Node>, values: seq<Node>)
  {
    |keys| == |values| && (forall i :: 0 <= i < |keys| ==> Simple(keys[i])) && (forall i :: 0 <= i < |values| ==> Simple(values[i]))
  }

  /** One entry of a dict display: a name key is quoted, any other key is written as it renders. */
  function EntryText(k: Node, v: Node): string
    requires Simple(k) && Simple(v)
  {
    if k.Name? then "\"" + SimpleText(k) + "\" => " + SimpleText(v) else SimpleText(k) + " => " + SimpleText(v)
  }

  function EntryTexts(keys: seq<Node>, values: seq<Node>): (r: seq<string>)
    requires SimpleDict(keys, values)
    ensures |r| == |keys|
    ensures forall i :: 0 <= i < |keys| ==> r[i] == EntryText(keys[i], values[i])
  {
    seq(|keys|, i requires 0 <= i < |keys| => EntryText(keys[i], values[i]))
  }

  lemma DictEntryStep(env: Env, reg: TranslatorRegistry, st: St, n: Node, i: nat, acc: seq<string>, crytype: Option<Node>)
    requires env.mode != NoError && n.Dict? && SimpleDict(n.keys, n.values) && i < |n.keys|
    ensures LowerDict(env, reg, st, n, i, acc, crytype) ==
      LowerDict(env, reg, st, n, i + 1, acc + [EntryText(n.keys[i], n.values[i])], crytype)
  {
    SimpleLowers(env, reg, st, n.keys[i]);
    SimpleLowers(env, reg, st, n.values[i]);
  }

  lemma DictLoopEnd(env: Env, reg: TranslatorRegistry, st: St, n: Node, acc: seq<string>, crytype: Option<Node>)
    requires n.Dict? && |n.keys| == |n.values| && |acc| > 0
    ensures LowerDict(env, reg, st, n, |n.keys|, acc, crytype) == Ok(Out("{" + Join(acc, ", ") + "}", st))
  {
  }

  lemma EntriesFrom(acc: seq<string>, es: seq<string>, i: nat)
    requires i <= |es|
    ensures i == |es| ==> acc + es[i..] == acc
    ensures i < |es| ==> acc + es[i..] == (acc + [es[i]]) + es[i + 1..]
  {
    if i < |es| {
      assert es[i..] == [es[i]] + es[i + 1..];
    }
  }

  /** The entry loop of `visit_Dict` from entry `i` on, after the entries `acc`. */
  lemma {:induction false} DictLoop(env: Env, reg: TranslatorRegistry, st: St, n: Node, i: nat, acc: seq<string>, crytype: Option<Node>)
    requires env.mode != NoError && n.Dict? && SimpleDict(n.keys, n.values)
    requires i <= |n.keys| && |acc| + |n.keys| - i > 0
    ensures LowerDict(env, reg, st, n, i, acc, crytype) ==
      Ok(Out("{" + Join(acc + EntryTexts(n.keys, n.values)[i..], ", ") + "}", st))
    decreases |n.keys| - i
  {
    var es := EntryTexts(n.keys, n.values);
    EntriesFrom(acc, es, i);
    if i == |n.keys| {
      DictLoopEnd(env, reg, st, n, acc, crytype);
    } else {
      DictEntryStep(env, reg, st, n, i, acc, crytype);
      DictLoop(env, reg, st, n, i + 1, acc + [es[i]], crytype);
    }
  }

  /**
   * A dict display of `Simple` keys and values: its entries in order,
   * joined inside braces, with the state untouched; no entries is the
   * empty-hash rule.
   */
  lemma DictDisplay(env: Env, reg: TranslatorRegistry, st: St, keys: seq<Node>, values: seq<Node>, crytype: Option<Node>)
    requires env.mode != NoError && SimpleDict(keys, values)
    ensures |keys| > 0 ==> Lower(env, reg, st, Dict(keys, values), crytype) == Ok(Out("{" + Join(EntryTexts(keys, values), ", ") + "}", st))
    ensures |keys| == 0 ==> Lower(env, reg, st, Dict(keys, values), crytype) == EmptyHashText(env, st, crytype)
  {
    if |keys| > 0 {
      DictLoop(env, reg, st, Dict(keys, values), 0, [], crytype);
      assert [] + EntryTexts(keys, values)[0..] == EntryTexts(keys, values);
    }
  }

  lemma NameKeyEntry()
    ensures SimpleDict([Name("k")], [Name("v")])
    ensures EntryTexts([Name("k")], [Name("v")]) == ["\"k\" => v"]
  {
    var e := EntryTexts([Name("k")], [Name("v")]);
    assert |e| == 1 && e[0] == EntryText(Name("k"), Name("v")) == "\"" + "k" + "\" => " + "v";
    assert "\"" + "k" + "\" => " + "v" == "\"k\" => v";
    assert e == [e[0]];
  }

  lemma IntKeyEntry()
    ensures SimpleDict([Constant(CInt(1))], [Name("v")])
    ensures EntryTexts([Constant(CInt(1))], [Name("v")]) == ["1 => v"]
  {
    var e := EntryTexts([Constant(CInt(1))], [Name("v")]);
    assert IntText(1) == "1";
    assert |e| == 1 && e[0] == EntryText(Constant(CInt(1)), Name("v")) == "1" + " => " + "v";
    assert "1" + " => " + "v" == "1 => v";
    assert e == [e[0]];
  }

  /** `{k: v}` is `{"k" => v}`: a name key is quoted. */
  lemma NameKeyDict(env: Env, reg: TranslatorRegistry, st: St)
    requires env.mode != NoError
    ensures Lower(env, reg, st, Dict([Name("k")], [Name("v")]), None) == Ok(Out("{\"k\" => v}", st))
  {
    NameKeyEntry();
    DictDisplay(env, reg, st, [Name("k")], [Name("v")], None);
    assert Join(["\"k\" => v"], ", ") == "\"k\" => v";
    assert "{" + "\"k\" => v" + "}" == "{\"k\" => v}";
  }

  /** `{1: v}` is `{1 => v}`: any other key is written as it renders. */
  lemma IntKeyDict(env: Env, reg: TranslatorRegistry, st: St)
    requires env.mode != NoError
    ensures Lower(env, reg, st, Dict([Constant(CInt(1))], [Name("v")]), None) == Ok(Out("{1 => v}", st))
  {
    IntKeyEntry();
    DictDisplay(env, reg, st, [Constant(CInt(1))], [Name("v")], None);
    assert Join(["1 => v"], ", ") == "1 => v";
    assert "{" + "1 => v" + "}" == "{1 => v}";
  }
}
