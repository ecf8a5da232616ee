/**
 * What the statement visitors of `RB` compute apart from writing: the
 * lines of `for` and `while` with their `else` lowering, function headers
 * with their defaults tables and the `self` check, class headers with the
 * ancestor linearisation, and the `require` of an import.
 */
module Statements {
  import opened Wrappers
  import opened Strings
  import opened Ast
  import opened RbHelpers
  import opened Translator
  import opened Lowering
  import CrystalTypes
  import Formatter

  /** One written line: the indentation of `level`, the text and a newline. */
  function Line(unit: string, level: int, text: string): string
  {
    Repeat(unit, level) + text + "\n"
  }

  function Min(a: nat, b: nat): nat
  {
    if a <= b then a else b
  }

  /** A visitor table is truthy in Python when it is set and not empty. */
  predicate InClass(env: Env)
  {
    env.className.Some? && env.className.value != ""
  }

  // ---------------------------------------------------------------------
  // for / while and their else branches

  /** `visit_For` accepts a name, a tuple or a list as its target. */
  predicate ForTarget(n: Node)
  {
    n.Name? || n.Tuple? || n.List?
  }

  /** The target rendered in tuple mode `()`, then the iterable in mode `[]`. */
  function ForHeads(env: Env, reg: TranslatorRegistry, st: St, target: Node, iter: Node): Result<(string, string, St)>
  {
    var t :- Lowering.Lower(env, reg, st.(tupleType := "()"), target, None);
    var i :- Lowering.Lower(env, reg, t.st.(tupleType := "[]"), iter, None);
    Ok((t.text, i.text, i.st))
  }

  /** The guard that sets the flag once the loop variable is the iterable's last element. */
  function ForFlagLines(u: string, k: int, f: string, t: string, it: string): string
  {
    Line(u, k + 1, "if " + t + " == " + it + "[-1]") + Line(u, k + 2, f + " = true") + Line(u, k + 1, "end")
  }

  /**
   * What `visit_For` writes at level `k` around what its body and its
   * else branch wrote; `flag` is the fresh name used when there is an
   * else branch.
   */
  function ForLines(u: string, k: int, flag: Option<string>, t: string, it: string, body: string, orelse: string): string
  {
    match flag
    case None => Line(u, k, it + ".py_each do |" + t + "|") + body + Line(u, k, "end")
    case Some(f) =>
      Line(u, k, f + " = false")
      + Line(u, k, it + ".py_each do |" + t + "|")
      + body
      + ForFlagLines(u, k, f, t, it)
      + Line(u, k, "end")
      + Line(u, k, "if " + f)
      + orelse
      + Line(u, k, "end")
  }

  /** The guard at the top of a `while true` loop: set the flag and leave once the test fails. */
  function WhileGuard(u: string, k: int, f: string, test: string): string
  {
    Line(u, k, "    unless " + test) + Line(u, k, "        " + f + " = true") + Line(u, k, "        break") + Line(u, k, "    end")
  }

  /** What `visit_While` writes at level `k`. */
  function WhileLines(u: string, k: int, flag: Option<string>, test: string, body: string, orelse: string): string
  {
    match flag
    case None => Line(u, k, "while " + test) + body + Line(u, k, "end")
    case Some(f) =>
      Line(u, k, f + " = false")
      + Line(u, k, "while true")
      + WhileGuard(u, k, f, test)
      + body
      + Line(u, k, "end")
      + Line(u, k, "if " + f)
      + orelse
      + Line(u, k, "end")
  }

  /** A `for` opens with the flag, the block head and the body, and closes with the flag step, `end` and the `else` part. */
  lemma ForLinesShape(u: string, k: int, flag: Option<string>, t: string, it: string, body: string, orelse: string)
    ensures StartsWith(ForLines(u, k, flag, t, it, body, orelse), FlagInit(u, k, flag) + Line(u, k, it + ".py_each do |" + t + "|") + body)
    ensures EndsWith(ForLines(u, k, flag, t, it, body, orelse), ForFlag(u, k, flag, t, it) + Line(u, k, "end") + LoopElse(u, k, flag, orelse))
  {
    var head, close := Line(u, k, it + ".py_each do |" + t + "|"), Line(u, k, "end");
    match flag
    case None =>
      assert FlagInit(u, k, flag) + head + body == head + body;
      assert ForFlag(u, k, flag, t, it) + close + LoopElse(u, k, flag, orelse) == close;
      Affixes(head + body, close);
    case Some(f) =>
      var init, flagLines, test := Line(u, k, f + " = false"), ForFlagLines(u, k, f, t, it), Line(u, k, "if " + f);
      SplitAtThree(init, head, body, flagLines, close, test, orelse, close);
      Affixes(init + head + body, flagLines + close + (test + orelse + close));
  }

  /** A `while` opens with its head and the body, and closes with `end` and the `else` part. */
  lemma WhileLinesShape(u: string, k: int, flag: Option<string>, test: string, body: string, orelse: string)
    ensures StartsWith(WhileLines(u, k, flag, test, body, orelse), WhileHead(u, k, flag, test) + body)
    ensures EndsWith(WhileLines(u, k, flag, test, body, orelse), Line(u, k, "end") + LoopElse(u, k, flag, orelse))
  {
    var close := Line(u, k, "end");
    match flag
    case None =>
      assert close + LoopElse(u, k, flag, orelse) == close;
      Affixes(WhileHead(u, k, flag, test) + body, close);
    case Some(f) =>
      var init, loop, guard, cond := Line(u, k, f + " = false"), Line(u, k, "while true"), WhileGuard(u, k, f, test), Line(u, k, "if " + f);
      SplitAtThree(init, loop, guard, body, close, cond, orelse, close);
      Affixes(init + loop + guard + body, close + (cond + orelse + close));
  }

  /**
   * The else form of `for` is the plain loop whose body ends with the flag
   * guard, between the flag's initialisation and the `if flag` block.
   */
  lemma ForElseWrapsPlainLoop(u: string, k: int, f: string, t: string, it: string, body: string, orelse: string)
    ensures ForLines(u, k, Some(f), t, it, body, orelse)
         == Line(u, k, f + " = false")
          + ForLines(u, k, None, t, it, body + ForFlagLines(u, k, f, t, it), "")
          + Line(u, k, "if " + f) + orelse + Line(u, k, "end")
  {
    var a, b, c, d := Line(u, k, f + " = false"), Line(u, k, it + ".py_each do |" + t + "|"), ForFlagLines(u, k, f, t, it), Line(u, k, "end");
    Assoc(a, b + (body + c), d);
    Assoc(a, b, body + c);
    Assoc(a + b, body, c);
  }

  /**
   * The else form of `while` is an endless loop whose body starts with the
   * guard that sets the flag and breaks when the test fails.
   */
  lemma WhileElseWrapsEndlessLoop(u: string, k: int, f: string, test: string, body: string, orelse: string)
    ensures WhileLines(u, k, Some(f), test, body, orelse)
         == Line(u, k, f + " = false")
          + WhileLines(u, k, None, "true", WhileGuard(u, k, f, test) + body, "")
          + Line(u, k, "if " + f) + orelse + Line(u, k, "end")
  {
    var a, w, g, d := Line(u, k, f + " = false"), Line(u, k, "while true"), WhileGuard(u, k, f, test), Line(u, k, "end");
    assert "while " + "true" == "while true";
    Assoc(a, w + (g + body), d);
    Assoc(a, w, g + body);
    Assoc(a + w, g, body);
  }

  /** The flag's initialisation, written before a loop with an else branch. */
  function FlagInit(u: string, k: int, flag: Option<string>): string
  {
    if flag.Some? then Line(u, k, flag.value + " = false") else ""
  }

  /** The flag guard at the end of a `for` body with an else branch. */
  function ForFlag(u: string, k: int, flag: Option<string>, t: string, it: string): string
  {
    if flag.Some? then ForFlagLines(u, k, flag.value, t, it) else ""
  }

  /** The `if flag` block holding the else branch, after the loop. */
  function LoopElse(u: string, k: int, flag: Option<string>, orelse: string): string
  {
    if flag.Some? then Line(u, k, "if " + flag.value) + orelse + Line(u, k, "end") else ""
  }

  /** The lines of a `while` loop up to its body: the plain head, or the flag, `while true` and the guard. */
  function WhileHead(u: string, k: int, flag: Option<string>, test: string): string
  {
    match flag
    case None => Line(u, k, "while " + test)
    case Some(f) => Line(u, k, f + " = false") + Line(u, k, "while true") + WhileGuard(u, k, f, test)
  }

  lemma ForFlagInOrder(p: string, u: string, k: int, f: string, t: string, it: string)
    ensures p + Line(u, k + 1, "if " + t + " == " + it + "[-1]") + Line(u, k + 2, f + " = true") + Line(u, k + 1, "end")
         == p + ForFlagLines(u, k, f, t, it)
  {
    Three(p, Line(u, k + 1, "if " + t + " == " + it + "[-1]"), Line(u, k + 2, f + " = true"), Line(u, k + 1, "end"));
  }

  lemma WhileHeadInOrder(p: string, u: string, k: int, f: string, test: string)
    ensures p + Line(u, k, f + " = false") + Line(u, k, "while true") + Line(u, k, "    unless " + test)
              + Line(u, k, "        " + f + " = true") + Line(u, k, "        break") + Line(u, k, "    end")
         == p + WhileHead(u, k, Some(f), test)
  {
    var a, w := Line(u, k, f + " = false"), Line(u, k, "while true");
    var l1, l2, l3, l4 := Line(u, k, "    unless " + test), Line(u, k, "        " + f + " = true"), Line(u, k, "        break"), Line(u, k, "    end");
    var q := p + a + w;
    Assoc(q, l1 + l2 + l3, l4);
    Assoc(q, l1 + l2, l3);
    Assoc(q, l1, l2);
    Assoc(p, a + w, l1 + l2 + l3 + l4);
    Assoc(p, a, w);
  }

  /** The parts of a `for` loop in the order they are written, one after another. */
  lemma ForLinesInOrder(p: string, u: string, k: int, flag: Option<string>, t: string, it: string, body: string, orelse: string)
    ensures p + FlagInit(u, k, flag) + Line(u, k, it + ".py_each do |" + t + "|") + body + ForFlag(u, k, flag, t, it)
              + Line(u, k, "end") + LoopElse(u, k, flag, orelse)
         == p + ForLines(u, k, flag, t, it, body, orelse)
  {
    var b, d := Line(u, k, it + ".py_each do |" + t + "|"), Line(u, k, "end");
    if flag.None? {
      assert p + "" == p;
      assert p + b + body + "" == p + b + body;
      assert p + b + body + d + "" == p + b + body + d;
      Three(p, b, body, d);
    } else {
      var f := flag.value;
      SixThenThree(p, Line(u, k, f + " = false"), b, body, ForFlagLines(u, k, f, t, it), d, Line(u, k, "if " + f), orelse, d);
    }
  }

  /** The parts of a `while` loop in the order they are written, one after another. */
  lemma WhileLinesInOrder(p: string, u: string, k: int, flag: Option<string>, test: string, body: string, orelse: string)
    ensures p + WhileHead(u, k, flag, test) + body + Line(u, k, "end") + LoopElse(u, k, flag, orelse)
         == p + WhileLines(u, k, flag, test, body, orelse)
  {
    var d := Line(u, k, "end");
    if flag.None? {
      var b := Line(u, k, "while " + test);
      assert p + b + body + d + "" == p + b + body + d;
      Three(p, b, body, d);
    } else {
      var f := flag.value;
      ThreeThenThree(p, Line(u, k, f + " = false"), Line(u, k, "while true"), WhileGuard(u, k, f, test), body, d,
                     Line(u, k, "if " + f), orelse, d);
    }
  }

  /** What `visit_FunctionDef` writes at level `k`: the header, the body, `end`, and the rebinding line if any. */
  function FunctionLines(u: string, k: int, header: string, body: string, tail: string): string
  {
    Line(u, k, header) + body + Line(u, k, "end") + tail
  }

  lemma FunctionLinesInOrder(p: string, u: string, k: int, header: string, body: string, tail: string)
    ensures p + Line(u, k, header) + body + Line(u, k, "end") + tail == p + FunctionLines(u, k, header, body, tail)
  {
    Four(p, Line(u, k, header), body, Line(u, k, "end"), tail);
  }

  /** What `visit_ClassDef` writes at level `k`: the header, the wrappers and the body one level in, and `end`. */
  function ClassLines(u: string, k: int, header: string, wrappers: string, body: string): string
  {
    Line(u, k, header) + wrappers + body + Line(u, k, "end")
  }

  lemma ClassLinesInOrder(p: string, u: string, k: int, header: string, wrappers: string, body: string)
    ensures p + Line(u, k, header) + wrappers + body + Line(u, k, "end") == p + ClassLines(u, k, header, wrappers, body)
  {
    Four(p, Line(u, k, header), wrappers, body, Line(u, k, "end"));
  }

  // ---------------------------------------------------------------------
  // Function headers: the defaults table

  /** `[None] * (len(args) - len(defaults)) + defaults`: defaults aligned to the right. */
  function AlignedDefaults(nargs: nat, defaults: seq<Node>): seq<Option<Node>>
  {
    seq(if |defaults| <= nargs then nargs - |defaults| else 0, _ => None)
      + seq(|defaults|, i requires 0 <= i < |defaults| => Some(defaults[i]))
  }

  /** One slot per pair of `zip(args, ds)`: none for a parameter without default, its name otherwise. */
  function SlotsOf(args: seq<Arg>, ds: seq<Option<Node>>): seq<Slot>
  {
    seq(Min(|args|, |ds|), i requires 0 <= i < Min(|args|, |ds|) =>
      if ds[i].None? then NoDefault else Named(args[i].name))
  }

  lemma SlotsOfStep(args: seq<Arg>, ds: seq<Option<Node>>, i: nat)
    requires i < Min(|args|, |ds|)
    ensures SlotsOf(args, ds)[..i + 1] == SlotsOf(args, ds)[..i] + [if ds[i].None? then NoDefault else Named(args[i].name)]
  {
  }

  /** The slots of the positional parameters, as `zip` pairs them with the aligned defaults. */
  function PositionalSlots(args: seq<Arg>, defaults: seq<Node>): seq<Slot>
  {
    SlotsOf(args, AlignedDefaults(|args|, defaults))
  }

  /** Keyword-only parameters always get their name as slot. */
  function KwOnlySlots(kws: seq<Arg>, kds: seq<Option<Node>>): seq<Slot>
  {
    seq(Min(|kws|, |kds|), i requires 0 <= i < Min(|kws|, |kds|) => Named(kws[i].name))
  }

  lemma KwOnlySlotsStep(kws: seq<Arg>, kds: seq<Option<Node>>, i: nat)
    requires i < Min(|kws|, |kds|)
    ensures KwOnlySlots(kws, kds)[..i + 1] == KwOnlySlots(kws, kds)[..i] + [Named(kws[i].name)]
  {
  }

  /** The table `visit_FunctionDef` stores; `dropSelf` when the `self` slot was removed. */
  function DefaultsTable(p: Arguments, dropSelf: bool): seq<Slot>
  {
    var pos := PositionalSlots(p.args, p.defaults);
    (if dropSelf && |pos| > 0 then pos[1..] else pos)
      + (if p.vararg.Some? then [StarMarker] else [])
      + KwOnlySlots(p.kwonlyargs, p.kwDefaults)
      + (if p.kwarg.Some? then [StarStarMarker] else [])
  }

  /** One slot per positional parameter: no default for the first ones, the name for the defaulted tail. */
  lemma PositionalSlotsRightAligned(args: seq<Arg>, defaults: seq<Node>)
    requires |defaults| <= |args|
    ensures |PositionalSlots(args, defaults)| == |args|
    ensures forall i :: 0 <= i < |args| ==>
      (PositionalSlots(args, defaults)[i] == NoDefault <==> i < |args| - |defaults|)
    ensures forall i :: |args| - |defaults| <= i < |args| ==>
      PositionalSlots(args, defaults)[i] == Named(args[i].name)
  {
    var ds := AlignedDefaults(|args|, defaults);
    assert |ds| == |args|;
    forall i | 0 <= i < |args|
      ensures ds[i].None? <==> i < |args| - |defaults|
    {
      if i < |args| - |defaults| {
        assert ds[i] == None;
      } else {
        assert ds[i] == Some(defaults[i - (|args| - |defaults|)]);
      }
    }
  }

  /** A table holds the `[None]` marker, and so is never used for keyword rewriting, exactly when the function has `*args`. */
  lemma TableUsableIffNoVararg(p: Arguments, dropSelf: bool)
    ensures Usable(DefaultsTable(p, dropSelf)) <==> p.vararg.None?
  {
    var pos := PositionalSlots(p.args, p.defaults);
    var head := if dropSelf && |pos| > 0 then pos[1..] else pos;
    var va: seq<Slot> := if p.vararg.Some? then [StarMarker] else [];
    var kw := KwOnlySlots(p.kwonlyargs, p.kwDefaults);
    var ka: seq<Slot> := if p.kwarg.Some? then [StarStarMarker] else [];
    var t := head + va + kw + ka;
    assert t == DefaultsTable(p, dropSelf);
    if p.vararg.Some? {
      assert t[|head|] == StarMarker;
    } else {
      forall i | 0 <= i < |t| ensures t[i] != StarMarker {
        if i < |head| {
          assert t[i] == head[i];
          assert head[i] == pos[if dropSelf && |pos| > 0 then i + 1 else i];
        } else if i < |head| + |kw| {
          assert t[i] == kw[i - |head|];
        } else {
          assert t[i] == ka[i - |head| - |kw|];
        }
      }
    }
  }

  // ---------------------------------------------------------------------
  // Function headers: rendering the parameters

  datatype Rendered = Rendered(texts: seq<string>, st: St)

  /** Texts rendered so far in front of what the rest of a loop renders. */
  function Prepend(texts: seq<string>, r: Result<Rendered>): Result<Rendered>
  {
    match r
    case Ok(x) => Ok(Rendered(texts + x.texts, x.st))
    case Err(e) => Err(e)
  }

  lemma PrependNothing(r: Result<Rendered>)
    ensures Prepend([], r) == r
  {
    if r.Ok? {
      assert [] + r.value.texts == r.value.texts;
    }
  }

  /** One more rendered text moved from the rest of a loop to the texts so far. */
  lemma PrependStep(texts: seq<string>, t: string, r: Result<Rendered>)
    ensures Prepend(texts, Prepend([t], r)) == Prepend(texts + [t], r)
  {
    if r.Ok? {
      assert texts + ([t] + r.value.texts) == (texts + [t]) + r.value.texts;
    }
  }

  /** One positional parameter: the name, then `: type` and `= default` when present, joined by spaces. */
  function ParamText(name: string, anno: Option<string>, dflt: Option<string>): string
  {
    Join([name] + (if anno.Some? then [":", anno.value] else []) + (if dflt.Some? then ["=", dflt.value] else []), " ")
  }

  function AnnotationText(a: Option<Node>): Result<Option<string>>
  {
    match a
    case None => Ok(None)
    case Some(n) => var t :- CrystalTypes.Visit(n); Ok(Some(t))
  }

  /** `visit(None)`: nothing in the module pass; otherwise reporting the unknown node itself fails. */
  function LowerNone(env: Env, st: St): (r: Result<Out>)
    ensures r.Ok? <==> env.mode == NoError
    ensures r.Ok? ==> r.value == Out("", st)
  {
    if env.mode == NoError then Ok(Out("", st)) else Err(RuntimeFault("AttributeError"))
  }

  /** A positional parameter's default visited, when it has one. */
  function DefaultOf(env: Env, reg: TranslatorRegistry, st: St, d: Option<Node>): Result<Out>
  {
    if d.Some? then Lowering.Lower(env, reg, st, d.value, None) else Ok(Out("", st))
  }

  /** A keyword-only parameter's default visited; a missing one is `visit(None)`. */
  function KwDefaultOf(env: Env, reg: TranslatorRegistry, st: St, d: Option<Node>): Result<Out>
  {
    if d.Some? then Lowering.Lower(env, reg, st, d.value, None) else LowerNone(env, st)
  }

  /** One positional parameter: its annotation, then its default. */
  function PositionalParam(env: Env, reg: TranslatorRegistry, st: St, a: Arg, d: Option<Node>): Result<Out>
  {
    var anno :- AnnotationText(a.annotation);
    var dd :- DefaultOf(env, reg, st, d);
    Ok(Out(ParamText(a.name, anno, if d.Some? then Some(dd.text) else None), dd.st))
  }

  /** The positional loop of `visit_FunctionDef`. */
  function RenderPositional(env: Env, reg: TranslatorRegistry, st: St, args: seq<Arg>, ds: seq<Option<Node>>): (r: Result<Rendered>)
    ensures r.Ok? ==> |r.value.texts| == Min(|args|, |ds|)
    decreases |args|
  {
    if |args| == 0 || |ds| == 0 then Ok(Rendered([], st))
    else
      var q :- PositionalParam(env, reg, st, args[0], ds[0]);
      var rest :- RenderPositional(env, reg, q.st, args[1..], ds[1..]);
      Ok(Rendered([q.text] + rest.texts, rest.st))
  }

  /** Keyword-only parameters render `name = default`. */
  function RenderKwOnly(env: Env, reg: TranslatorRegistry, st: St, kws: seq<Arg>, kds: seq<Option<Node>>): (r: Result<Rendered>)
    ensures r.Ok? ==> |r.value.texts| == Min(|kws|, |kds|)
    decreases |kws|
  {
    if |kws| == 0 || |kds| == 0 then Ok(Rendered([], st))
    else
      var d :- KwDefaultOf(env, reg, st, kds[0]);
      var rest :- RenderKwOnly(env, reg, d.st, kws[1..], kds[1..]);
      Ok(Rendered([kws[0].name + " = " + d.text] + rest.texts, rest.st))
  }

  /** `*name` or `**name`, the parameter visited as an expression. */
  function StarParam(env: Env, reg: TranslatorRegistry, st: St, prefix: string, a: Option<Arg>): (r: Result<Rendered>)
    ensures r.Ok? ==> |r.value.texts| == (if a.Some? then 1 else 0)
  {
    match a
    case None => Ok(Rendered([], st))
    case Some(x) => var o :- Lowering.Lower(env, reg, st, ArgNode(x.name), None); Ok(Rendered([prefix + o.text], o.st))
  }

  const SelfError: Error := NotImplemented("The first argument must be 'self'")

  /** The `self` check: a checked method's first rendered parameter must be exactly `self`, and is dropped. */
  function SelfDropped(texts: seq<string>, checked: bool): (r: Result<seq<string>>)
    ensures !checked ==> r == Ok(texts)
    ensures checked ==> (r.Ok? <==> |texts| > 0 && texts[0] == "self")
    ensures checked && r.Ok? ==> r.value == texts[1..]
  {
    if !checked then Ok(texts)
    else if |texts| == 0 then Err(RuntimeFault("IndexError"))
    else if texts[0] != "self" then Err(SelfError)
    else Ok(texts[1..])
  }

  datatype ParamList = ParamList(texts: seq<string>, slots: seq<Slot>, st: St)

  /** The slots after the positional ones: `*args`, the keyword-only parameters, `**kwargs`. */
  function RestSlots(p: Arguments): seq<Slot>
  {
    (if p.vararg.Some? then [StarMarker] else []) + KwOnlySlots(p.kwonlyargs, p.kwDefaults)
      + (if p.kwarg.Some? then [StarStarMarker] else [])
  }

  lemma DefaultsTableSplit(p: Arguments, dropSelf: bool)
    ensures var pos := PositionalSlots(p.args, p.defaults);
      DefaultsTable(p, dropSelf) == (if dropSelf && |pos| > 0 then pos[1..] else pos) + RestSlots(p)
  {
  }

  /** The rendered parameter list and the defaults table of a header. */
  function HeadParams(env: Env, reg: TranslatorRegistry, st: St, p: Arguments, checked: bool): Result<ParamList>
  {
    var pos :- RenderPositional(env, reg, st, p.args, AlignedDefaults(|p.args|, p.defaults));
    var kept :- SelfDropped(pos.texts, checked);
    var rest :- RestParams(env, reg, pos.st, p);
    Ok(ParamList(kept + rest.texts, DefaultsTable(p, checked), rest.st))
  }

  /** The parameters after the positional ones: `*args`, the keyword-only parameters and `**kwargs`. */
  function RestParams(env: Env, reg: TranslatorRegistry, st: St, p: Arguments): Result<Rendered>
  {
    var va :- StarParam(env, reg, st, "*", p.vararg);
    var kw :- RenderKwOnly(env, reg, va.st, p.kwonlyargs, p.kwDefaults);
    var ka :- StarParam(env, reg, kw.st, "**", p.kwarg);
    Ok(Rendered(va.texts + kw.texts + ka.texts, ka.st))
  }

  /** The first positional parameter renders as exactly `self`: so named, unannotated and without default. */
  predicate PlainSelfFirst(p: Arguments)
  {
    |p.args| > 0 && p.args[0].name == "self" && p.args[0].annotation.None? && |p.defaults| < |p.args|
  }

  /** A rendered parameter is `self` only when it is the bare name `self`. */
  lemma ParamTextIsSelf(name: string, anno: Option<string>, dflt: Option<string>)
    ensures ParamText(name, anno, dflt) == "self" <==> name == "self" && anno.None? && dflt.None?
  {
    var parts := [name] + (if anno.Some? then [":", anno.value] else []) + (if dflt.Some? then ["=", dflt.value] else []);
    if anno.Some? || dflt.Some? {
      assert |parts| >= 3;
      assert parts[1..][0] == parts[1];
      var t := Join(parts, " ");
      assert t == name + " " + Join(parts[1..], " ");
      assert |name| < |t| && t[|name|] == ' ';
      assert forall i :: 0 <= i < |"self"| ==> "self"[i] != ' ';
    } else {
      assert parts == [name];
    }
  }

  /** The first aligned default is absent exactly when there are more parameters than defaults. */
  lemma FirstDefault(nargs: nat, defaults: seq<Node>)
    requires nargs > 0
    ensures |AlignedDefaults(nargs, defaults)| > 0
    ensures AlignedDefaults(nargs, defaults)[0].None? <==> |defaults| < nargs
  {
    var ds := AlignedDefaults(nargs, defaults);
    if |defaults| < nargs {
      assert ds[0] == None;
    } else {
      assert ds[0] == Some(defaults[0]);
    }
  }

  /** A checked method whose first parameter is not a plain `self` never gets a header. */
  lemma SelfCheckRejects(env: Env, reg: TranslatorRegistry, st: St, p: Arguments)
    requires !PlainSelfFirst(p)
    ensures HeadParams(env, reg, st, p, true).Err?
  {
    var r := RenderPositional(env, reg, st, p.args, AlignedDefaults(|p.args|, p.defaults));
    if r.Ok? && |p.args| > 0 {
      FirstDefault(|p.args|, p.defaults);
      var ds := AlignedDefaults(|p.args|, p.defaults);
      var anno := AnnotationText(p.args[0].annotation);
      assert anno.Ok?;
      var d := DefaultOf(env, reg, st, ds[0]);
      assert PositionalParam(env, reg, st, p.args[0], ds[0]).Ok?;
      assert d.Ok?;
      assert r.value.texts[0] == ParamText(p.args[0].name, anno.value, if ds[0].Some? then Some(d.value.text) else None);
      ParamTextIsSelf(p.args[0].name, anno.value, if ds[0].Some? then Some(d.value.text) else None);
      assert anno.value.None? <==> p.args[0].annotation.None?;
    }
  }

  /** With a plain `self` first, the check only drops the first parameter and the first slot. */
  lemma SelfCheckDrops(env: Env, reg: TranslatorRegistry, st: St, p: Arguments)
    requires PlainSelfFirst(p)
    ensures HeadParams(env, reg, st, p, true).Ok? <==> HeadParams(env, reg, st, p, false).Ok?
    ensures HeadParams(env, reg, st, p, true).Ok? ==>
      HeadParams(env, reg, st, p, true).value.texts == HeadParams(env, reg, st, p, false).value.texts[1..]
      && HeadParams(env, reg, st, p, true).value.slots == HeadParams(env, reg, st, p, false).value.slots[1..]
      && HeadParams(env, reg, st, p, true).value.st == HeadParams(env, reg, st, p, false).value.st
  {
    var r := RenderPositional(env, reg, st, p.args, AlignedDefaults(|p.args|, p.defaults));
    FirstDefault(|p.args|, p.defaults);
    if r.Ok? {
      var anno := AnnotationText(p.args[0].annotation);
      assert r.value.texts[0] == ParamText("self", None, None);
      assert ParamText("self", None, None) == "self";
      var pos := PositionalSlots(p.args, p.defaults);
      assert |pos| > 0;
      assert pos[0] == NoDefault;
      var va: seq<Slot> := if p.vararg.Some? then [StarMarker] else [];
      var kw := KwOnlySlots(p.kwonlyargs, p.kwDefaults);
      var ka: seq<Slot> := if p.kwarg.Some? then [StarStarMarker] else [];
      assert (pos + va + kw + ka)[1..] == pos[1..] + va + kw + ka;
      var t := r.value.texts;
      forall a: seq<string> ensures (t + a)[1..] == t[1..] + a {
      }
    }
  }

  // ---------------------------------------------------------------------
  // Function headers: decorators and the header line

  datatype Flags = Flags(isStatic: bool, isProperty: bool, isSetter: bool)
  datatype Scan = Scan(flags: Flags, st: St)

  const NoFlags: Flags := Flags(false, false, false)

  predicate StaticDecorator(d: Node)
  {
    d.Name? && (d.id == "classmethod" || d.id == "staticmethod")
  }

  /**
   * One decorator of a method. An unknown name decorator is reported by
   * visiting its bare name, which fails outside the module pass; an
   * attribute decorator compares the FIRST decorator's text with `name.setter`.
   */
  function ScanDecorator(env: Env, reg: TranslatorRegistry, st: St, name: string, first: Node, d: Node, fl: Flags): (r: Result<Scan>)
    ensures r.Ok? ==> (r.value.flags.isStatic <==> fl.isStatic || StaticDecorator(d))
  {
    match d
    case Name(id) =>
      if id == "classmethod" || id == "staticmethod" then Ok(Scan(fl.(isStatic := true), st))
      else if id == "property" then Ok(Scan(fl.(isProperty := true), st))
      else if env.mode == NoError then Ok(Scan(fl, st))
      else Err(RuntimeFault("AttributeError"))
    case Attribute(_, _) =>
      var o :- Lowering.Lower(env, reg, st, first, None);
      Ok(Scan(if o.text == name + ".setter" then fl.(isSetter := true) else fl, o.st))
    case _ => Ok(Scan(fl, st))
  }

  function ScanAll(env: Env, reg: TranslatorRegistry, st: St, name: string, first: Node, ds: seq<Node>, fl: Flags): (r: Result<Scan>)
    decreases |ds|
  {
    if |ds| == 0 then Ok(Scan(fl, st))
    else
      var s :- ScanDecorator(env, reg, st, name, first, ds[0], fl);
      ScanAll(env, reg, s.st, name, first, ds[1..], s.flags)
  }

  /** Scanning marks a method static exactly when one of its decorators is `classmethod` or `staticmethod`. */
  lemma {:induction false} ScanAllStatic(env: Env, reg: TranslatorRegistry, st: St, name: string, first: Node, ds: seq<Node>, fl: Flags)
    ensures ScanAll(env, reg, st, name, first, ds, fl).Ok? ==>
      (ScanAll(env, reg, st, name, first, ds, fl).value.flags.isStatic <==>
        fl.isStatic || exists i :: 0 <= i < |ds| && StaticDecorator(ds[i]))
    decreases |ds|
  {
    if |ds| > 0 {
      var s := ScanDecorator(env, reg, st, name, first, ds[0], fl);
      if s.Ok? {
        ScanAllStatic(env, reg, s.value.st, name, first, ds[1..], s.value.flags);
        if exists i :: 0 <= i < |ds[1..]| && StaticDecorator(ds[1..][i]) {
          var i :| 0 <= i < |ds[1..]| && StaticDecorator(ds[1..][i]);
          assert StaticDecorator(ds[i + 1]);
        }
        if exists i :: 0 <= i < |ds| && StaticDecorator(ds[i]) {
          var i :| 0 <= i < |ds| && StaticDecorator(ds[i]);
          if i > 0 {
            assert StaticDecorator(ds[1..][i - 1]);
          }
        }
      }
    }
  }

  /**
   * The decorator handling of `visit_FunctionDef`. Only methods look at
   * their decorators; one that is neither static, property nor setter is
   * reported with a warning after visiting the first decorator.
   */
  function Decorations(env: Env, reg: TranslatorRegistry, st: St, name: string, ds: seq<Node>): Result<Scan>
  {
    if |ds| == 0 || !InClass(env) then Ok(Scan(NoFlags, st))
    else
      var s :- ScanAll(env, reg, st, name, ds[0], ds, NoFlags);
      if s.flags.isStatic || s.flags.isProperty || s.flags.isSetter then Ok(s)
      else
        var o :- Lowering.Lower(env, reg, s.st, ds[0], None);
        Ok(Scan(s.flags, Warn(env, o.st)))
  }

  /** The method name a header uses. */
  function FuncName(name: string, isStatic: bool): string
  {
    if name == "__init__" then "initialize"
    else if name == "__call__" then "call"
    else if name == "__str__" then "to_s"
    else if isStatic then "self." + name
    else name
  }

  function ArgNames(args: seq<Arg>): seq<string>
  {
    seq(|args|, i requires 0 <= i < |args| => args[i].name)
  }

  /** The tables decorators are visited with: the function pushed and its argument list reset. */
  function DecoratorEnv(env: Env, name: string): Env
  {
    env.(functionStack := env.functionStack + [name], functionArgs := [])
  }

  /** The tables parameters are visited with; in a class the scope is the parameter names. */
  function ParamEnv(env: Env, f: Stmt): Env
    requires f.FunctionDef?
  {
    var e := DecoratorEnv(env, f.name);
    if InClass(env) then e.(scope := ArgNames(f.params.args)) else e
  }

  /** Whether the `self` check applies: a non-static method of a class, not nested in a function, other than `__new__`. */
  function Checked(env: Env, name: string, fl: Flags): bool
  {
    name != "__new__" && InClass(env) && !fl.isStatic && |env.functionStack| == 0
  }

  datatype Header = Header(line: string, funcName: string, params: seq<string>, slots: seq<Slot>, flags: Flags, st: St)

  /** The header line: a setter, a closure bound to a local name, or a method with an optional return type. */
  function HeaderLine(fl: Flags, closure: bool, fname: string, params: seq<string>, ret: Option<Node>): (r: Result<string>)
    ensures r.Err? <==> !fl.isSetter && !closure && ret.Some? && CrystalTypes.Visit(ret.value).Err?
  {
    var args := Join(params, ", ");
    if fl.isSetter then Ok("def " + fname + "=(" + args + ")")
    else if closure then Ok(if |params| == 0 then fname + " = -> do" else fname + " = ->(" + args + ") do")
    else if ret.Some? then
      var a :- CrystalTypes.Visit(ret.value);
      Ok("def " + fname + "(" + args + ") : " + a)
    else Ok("def " + fname + "(" + args + ")")
  }

  /** A setter or plain function header starts `def name`, a closure `name = ->`; a return annotation ends it. */
  lemma HeaderLineShape(fl: Flags, closure: bool, fname: string, params: seq<string>, ret: Option<Node>)
    ensures var r := HeaderLine(fl, closure, fname, params, ret);
      (r.Ok? && (fl.isSetter || !closure) ==> StartsWith(r.value, "def " + fname))
      && (r.Ok? && closure && !fl.isSetter ==> StartsWith(r.value, fname + " = ->"))
      && (r.Ok? && !fl.isSetter && !closure && ret.Some? ==> EndsWith(r.value, ") : " + CrystalTypes.Visit(ret.value).value))
  {
  }

  datatype Signature = Signature(flags: Flags, params: ParamList)

  /** The decorators and the parameters of a function, visited in that order. */
  function FunctionSignature(env: Env, reg: TranslatorRegistry, st: St, f: Stmt): Result<Signature>
    requires f.FunctionDef?
  {
    var d :- Decorations(DecoratorEnv(env, f.name), reg, st, f.name, f.decorators);
    var ps :- HeadParams(ParamEnv(env, f), reg, d.st, f.params, Checked(env, f.name, d.flags));
    Ok(Signature(d.flags, ps))
  }

  /** Everything `visit_FunctionDef` computes before writing its header line. */
  function FunctionHeader(env: Env, reg: TranslatorRegistry, st: St, f: Stmt): (r: Result<Header>)
    requires f.FunctionDef?
    ensures r.Ok? ==> FunctionSignature(env, reg, st, f).Ok?
    ensures r.Ok? ==>
      var s := FunctionSignature(env, reg, st, f).value;
      r.value.flags == s.flags && r.value.params == s.params.texts && r.value.slots == s.params.slots && r.value.st == s.params.st
      && r.value.funcName == FuncName(f.name, s.flags.isStatic)
      && HeaderLine(s.flags, |env.functionStack| != 0, r.value.funcName, s.params.texts, f.returnAnno) == Ok(r.value.line)
  {
    var s :- FunctionSignature(env, reg, st, f);
    HeaderOf(f, s, |env.functionStack| != 0)
  }

  /** The header of a function with a visited signature; `closure` when it is nested in another function. */
  function HeaderOf(f: Stmt, s: Signature, closure: bool): Result<Header>
    requires f.FunctionDef?
  {
    var fname := FuncName(f.name, s.flags.isStatic);
    var line :- HeaderLine(s.flags, closure, fname, s.params.texts, f.returnAnno);
    Ok(Header(line, fname, s.params.texts, s.params.slots, s.flags, s.params.st))
  }

  /** A top-level method of a class without a static decorator is `self`-checked. */
  lemma MethodIsChecked(env: Env, reg: TranslatorRegistry, st: St, f: Stmt)
    requires f.FunctionDef? && f.name != "__new__" && InClass(env) && |env.functionStack| == 0
    requires forall i :: 0 <= i < |f.decorators| ==> !StaticDecorator(f.decorators[i])
    ensures Decorations(DecoratorEnv(env, f.name), reg, st, f.name, f.decorators).Ok? ==>
      Checked(env, f.name, Decorations(DecoratorEnv(env, f.name), reg, st, f.name, f.decorators).value.flags)
  {
    if |f.decorators| > 0 {
      ScanAllStatic(DecoratorEnv(env, f.name), reg, st, f.name, f.decorators[0], f.decorators, NoFlags);
    }
  }

  /** Such a method whose first parameter is not a plain `self` is rejected. */
  lemma MethodWithoutSelfRejected(env: Env, reg: TranslatorRegistry, st: St, f: Stmt)
    requires f.FunctionDef? && f.name != "__new__" && InClass(env) && |env.functionStack| == 0
    requires forall i :: 0 <= i < |f.decorators| ==> !StaticDecorator(f.decorators[i])
    requires !PlainSelfFirst(f.params)
    ensures FunctionHeader(env, reg, st, f).Err?
  {
    MethodIsChecked(env, reg, st, f);
    var d := Decorations(DecoratorEnv(env, f.name), reg, st, f.name, f.decorators);
    if d.Ok? {
      SelfCheckRejects(ParamEnv(env, f), reg, d.value.st, f.params);
    }
  }

  /** `def f(a, b=3)`: the table is `[None, "b"]`, so `f(x, 5)` is rewritten to `f(x, b: 5)`. */
  lemma DefaultsExample(x: string, five: string)
    requires x != "self"
    ensures DefaultsTable(Arguments([Arg("a", None), Arg("b", None)], None, [], [], None, [Constant(CInt(3))]), false)
         == [NoDefault, Named("b")]
    ensures Rewritten([x, five], DefaultsTable(Arguments([Arg("a", None), Arg("b", None)], None, [], [], None, [Constant(CInt(3))]), false))
         == [x, "b: " + five]
  {
    var p := Arguments([Arg("a", None), Arg("b", None)], None, [], [], None, [Constant(CInt(3))]);
    PositionalSlotsRightAligned(p.args, p.defaults);
    var pos := PositionalSlots(p.args, p.defaults);
    assert pos == [NoDefault, Named("b")];
    assert KwOnlySlots([], []) == [];
    assert DefaultsTable(p, false) == pos;
    RewriteExample(x, five);
  }

  /**
   * The header's own updates to the tables parameters were visited with
   * (`e` already holds the function on its stack): the rendered parameters,
   * the scope outside a class, the top-level table, and a closure's name.
   */
  function Declaring(e: Env, f: Stmt, h: Header): Env
    requires f.FunctionDef?
  {
    e.(functionArgs := h.params,
       scope := if e.className.None? then ArgNames(f.params.args) else e.scope,
       functions := if e.className.None? then e.functions[f.name := h.slots] else e.functions,
       lambdaFunctions := if !h.flags.isSetter && |e.functionStack| != 1 then e.lambdaFunctions + [h.funcName] else e.lambdaFunctions)
  }

  /**
   * The tables once a header is written: the function pushed, its rendered
   * parameters current, the scope set to the parameter names in a class
   * and outside one, the table filed under the top-level functions outside
   * a class, and a closure recorded as a lambda.
   */
  function Declared(env: Env, f: Stmt, h: Header): Env
    requires f.FunctionDef?
  {
    Declaring(ParamEnv(env, f), f, h)
  }

  /** A header's table is the defaults table of its parameters, `self` dropped when it was checked. */
  lemma HeaderTable(env: Env, reg: TranslatorRegistry, st: St, f: Stmt)
    requires f.FunctionDef?
    ensures FunctionHeader(env, reg, st, f).Ok? ==>
      var h := FunctionHeader(env, reg, st, f).value;
      h.slots == DefaultsTable(f.params, Checked(env, f.name, h.flags))
      && h.funcName == FuncName(f.name, h.flags.isStatic)
  {
  }

  /**
   * After a top-level function is declared, calls to it are rewritten with
   * its table exactly when it takes no `*args`.
   */
  lemma TopLevelTableUsed(env: Env, reg: TranslatorRegistry, st: St, f: Stmt)
    requires f.FunctionDef? && env.className.None? && !Contains(f.name, '.')
    requires FunctionHeader(env, reg, st, f).Ok?
    ensures var h := FunctionHeader(env, reg, st, f).value;
      DefaultsFor(Declared(env, f, h), f.name).slots == (if f.params.vararg.None? then Some(h.slots) else None)
  {
    var h := FunctionHeader(env, reg, st, f).value;
    HeaderTable(env, reg, st, f);
    TableUsableIffNoVararg(f.params, Checked(env, f.name, h.flags));
  }

  /**
   * The line after a top-level function with a single name decorator:
   * the function rebound to the decorator applied to its method object.
   */
  function DecoratorTail(u: string, k: int, f: Stmt, inClass: bool): string
    requires f.FunctionDef?
  {
    if !inClass && |f.decorators| == 1 && f.decorators[0].Name?
    then Line(u, k, f.name + " = " + f.decorators[0].id + "(method(:" + f.name + "))")
    else ""
  }

  // ---------------------------------------------------------------------
  // Class headers: ancestor linearisation

  /** `bases.remove(x)` when `x` is present: the first occurrence goes. */
  function RemoveFirst(s: seq<string>, x: string): (r: seq<string>)
    ensures x !in s ==> r == s
    ensures x in s ==> |r| == |s| - 1
    ensures forall y :: y in r ==> y in s
  {
    if |s| == 0 then s else if s[0] == x then s[1..] else [s[0]] + RemoveFirst(s[1..], x)
  }

  /** The ancestors a base contributes: its stored list with itself appended, or itself alone. */
  function Inherited(table: map<string, seq<string>>, base: string): seq<string>
  {
    if base in table then table[base] + [base] else [base]
  }

  /** The table after that lookup: the append happens on the base's stored list itself. */
  function Recorded(table: map<string, seq<string>>, base: string): map<string, seq<string>>
  {
    if base in table then table[base := table[base] + [base]] else table
  }

  /** Appends each name not present yet, in order. */
  function AddNew(acc: seq<string>, xs: seq<string>): (r: seq<string>)
    ensures acc <= r
    decreases |xs|
  {
    if |xs| == 0 then acc else AddNew(if xs[0] in acc then acc else acc + [xs[0]], xs[1..])
  }

  /** The loop over the bases: the table after the in-place appends, and the ancestor list recorded. */
  function Linearise(table: map<string, seq<string>>, bases: seq<string>, acc: seq<string>): (r: (map<string, seq<string>>, seq<string>))
    ensures acc <= r.1
    ensures r.0.Keys == table.Keys
    ensures forall c :: c in table && c !in bases ==> r.0[c] == table[c]
    decreases |bases|
  {
    if |bases| == 0 then (table, acc)
    else Linearise(Recorded(table, bases[0]), bases[1..], AddNew(acc, Inherited(table, bases[0])))
  }

  predicate Distinct(s: seq<string>)
  {
    forall i, j :: 0 <= i < j < |s| ==> s[i] != s[j]
  }

  /** Appending a name the list lacks keeps it duplicate-free. */
  lemma DistinctSnoc(acc: seq<string>, x: string)
    requires Distinct(acc) && x !in acc
    ensures Distinct(acc + [x])
  {
    var next := acc + [x];
    forall i, j | 0 <= i < j < |next| ensures next[i] != next[j] {
      if j == |acc| {
        assert next[i] == acc[i];
      }
    }
  }

  lemma {:induction false} AddNewDistinct(acc: seq<string>, xs: seq<string>)
    requires Distinct(acc)
    ensures Distinct(AddNew(acc, xs))
    decreases |xs|
  {
    if |xs| > 0 {
      if xs[0] !in acc {
        DistinctSnoc(acc, xs[0]);
      }
      AddNewDistinct(if xs[0] in acc then acc else acc + [xs[0]], xs[1..]);
    }
  }

  lemma {:induction false} AddNewMembers(acc: seq<string>, xs: seq<string>, y: string)
    ensures y in AddNew(acc, xs) <==> y in acc || y in xs
    decreases |xs|
  {
    if |xs| > 0 {
      var next := if xs[0] in acc then acc else acc + [xs[0]];
      AddNewMembers(next, xs[1..], y);
      assert xs == [xs[0]] + xs[1..];
      assert y in xs <==> y == xs[0] || y in xs[1..];
    }
  }

  lemma AddNewSpec(acc: seq<string>, xs: seq<string>)
    ensures Distinct(acc) ==> Distinct(AddNew(acc, xs))
    ensures forall y :: y in AddNew(acc, xs) <==> y in acc || y in xs
    ensures acc <= AddNew(acc, xs)
  {
    if Distinct(acc) {
      AddNewDistinct(acc, xs);
    }
    forall y ensures y in AddNew(acc, xs) <==> y in acc || y in xs {
      AddNewMembers(acc, xs, y);
    }
  }

  /** Names of a stored list after the in-place append: the old ones, and the base for its own entry. */
  lemma RecordedMembers(table: map<string, seq<string>>, base: string, c: string, y: string)
    ensures c in Recorded(table, base) <==> c in table
    ensures c in table ==> (y in Recorded(table, base)[c] <==> y in table[c] || (c == base && y == base))
  {
  }

  /** The recorded ancestor list never repeats a name. */
  lemma {:induction false} LineariseDistinct(table: map<string, seq<string>>, bases: seq<string>, acc: seq<string>)
    requires Distinct(acc)
    ensures Distinct(Linearise(table, bases, acc).1)
    decreases |bases|
  {
    if |bases| > 0 {
      AddNewDistinct(acc, Inherited(table, bases[0]));
      LineariseDistinct(Recorded(table, bases[0]), bases[1..], AddNew(acc, Inherited(table, bases[0])));
    }
  }

  /** `y` is the class `c` itself or an ancestor stored for it. */
  predicate Stored(table: map<string, seq<string>>, c: string, y: string)
  {
    y == c || (c in table && y in table[c])
  }

  /** The in-place append adds a class to its own list, which it already stands for. */
  lemma RecordedStored(table: map<string, seq<string>>, b: string, c: string, y: string)
    ensures Stored(Recorded(table, b), c, y) <==> Stored(table, c, y)
  {
    RecordedMembers(table, b, c, y);
  }

  /** A name is recorded exactly when it is one of the bases or stored for one of them. */
  lemma {:induction false} LineariseMembers(table: map<string, seq<string>>, bases: seq<string>, acc: seq<string>, y: string)
    ensures y in Linearise(table, bases, acc).1 <==> y in acc || exists i :: 0 <= i < |bases| && Stored(table, bases[i], y)
    decreases |bases|
  {
    if |bases| > 0 {
      var b, rest := bases[0], bases[1..];
      var t1 := Recorded(table, b);
      var acc1 := AddNew(acc, Inherited(table, b));
      AddNewMembers(acc, Inherited(table, b), y);
      assert y in Inherited(table, b) <==> Stored(table, b, y);
      LineariseMembers(t1, rest, acc1, y);
      forall i | 0 <= i < |rest| ensures Stored(t1, rest[i], y) <==> Stored(table, bases[i + 1], y) {
        RecordedStored(table, b, rest[i], y);
      }
      if exists i :: 0 <= i < |bases| && Stored(table, bases[i], y) {
        var i :| 0 <= i < |bases| && Stored(table, bases[i], y);
        if i > 0 {
          assert Stored(t1, rest[i - 1], y);
        }
      }
    }
  }

  /** A base's entry grows by itself, and no other entry changes. */
  lemma BaseEntryGrows(table: map<string, seq<string>>, b: string)
    ensures b in table ==> Linearise(table, [b], []).0 == table[b := table[b] + [b]]
    ensures b !in table ==> Linearise(table, [b], []).0 == table
  {
    assert [b][1..] == [];
  }

  /** With one base whose stored list is already duplicate-free, its ancestors come first and the base last. */
  lemma SingleBaseOrder(table: map<string, seq<string>>, b: string)
    requires b in table ==> Distinct(table[b]) && b !in table[b]
    ensures Linearise(table, [b], []).1 == Inherited(table, b)
  {
    assert [b][1..] == [];
    AddNewOfDistinct([], Inherited(table, b));
    if b in table {
      assert Distinct(table[b] + [b]);
    }
  }

  lemma {:induction false} AddNewOfDistinct(acc: seq<string>, xs: seq<string>)
    requires Distinct(xs)
    requires forall y :: y in xs ==> y !in acc
    ensures AddNew(acc, xs) == acc + xs
    decreases |xs|
  {
    if |xs| > 0 {
      var x, rest := xs[0], xs[1..];
      assert x !in acc;
      assert AddNew(acc, xs) == AddNew(acc + [x], rest);
      assert Distinct(rest);
      forall y | y in rest ensures y !in acc + [x] {
        assert y in xs;
      }
      AddNewOfDistinct(acc + [x], rest);
      assert acc + [x] + rest == acc + xs;
    }
  }

  /** `class B(A)` then `class C(B)`: C records `[A, B]`, and B's own entry has grown to `[A, B]` too. */
  lemma ChainExample()
    ensures Linearise(map[], ["A"], []) == (map[], ["A"])
    ensures Linearise(map["B" := ["A"]], ["B"], []) == (map["B" := ["A", "B"]], ["A", "B"])
  {
    assert ["A"][1..] == [];
    assert AddNew([], ["A"]) == ["A"] by {
      assert ["A"][1..] == [];
    }
    var t := map["B" := ["A"]];
    assert Distinct(t["B"]) && "B" !in t["B"];
    SingleBaseOrder(t, "B");
    BaseEntryGrows(t, "B");
    assert Inherited(t, "B") == ["A", "B"];
    assert t["B" := t["B"] + ["B"]] == map["B" := ["A", "B"]];
  }

  // ---------------------------------------------------------------------
  // Class headers: the header line

  /** `cls[0].upper() + cls[1:]`, which fails on an empty name. */
  function UpperFirst(s: string): (r: Result<string>)
    ensures r.Ok? <==> |s| > 0
    ensures r.Ok? ==> r.value == Formatter.Capitalize(s)
  {
    if |s| == 0 then Err(RuntimeFault("IndexError")) else Ok(Formatter.Capitalize(s))
  }

  function UpperAll(bs: seq<string>): (r: Result<seq<string>>)
    ensures r.Ok? ==> |r.value| == |bs|
    ensures r.Ok? ==> forall i :: 0 <= i < |bs| ==> r.value[i] == Formatter.Capitalize(bs[i])
  {
    if |bs| == 0 then Ok([])
    else
      var h :- UpperFirst(bs[0]);
      var t :- UpperAll(bs[1..]);
      Ok([h] + t)
  }

  /** Python's `repr` of a list of plain strings. */
  function ListRepr(xs: seq<string>): string
  {
    "[" + Join(seq(|xs|, i requires 0 <= i < |xs| => "'" + xs[i] + "'"), ", ") + "]"
  }

  /** `class R`, `class R < B`, or with several bases the last one as superclass and the others in a comment. */
  function ClassLine(rname: string, supers: seq<string>): (r: string)
    ensures |supers| == 0 ==> r == "class " + rname
  {
    if |supers| == 0 then "class " + rname
    else if |supers| == 1 then "class " + rname + " < " + supers[0]
    else "class " + rname + " < " + supers[|supers| - 1] + " # " + ListRepr(supers[..|supers| - 1])
  }

  /** The emitted superclass is always the last base. */
  lemma SuperclassIsLast(rname: string, supers: seq<string>)
    requires |supers| > 0
    ensures StartsWith(ClassLine(rname, supers), "class " + rname + " < " + supers[|supers| - 1])
    ensures |supers| > 1 ==> EndsWith(ClassLine(rname, supers), " # " + ListRepr(supers[..|supers| - 1]))
  {
  }

  /** The tables class bases are visited with: the per-class lists reset. */
  function ClassEnv(env: Env): Env
  {
    env.(selfFunctions := [], classFunctions := [], classVariables := [])
  }

  datatype ClassHead = ClassHead(line: string, rname: string, ancestors: seq<string>, table: map<string, seq<string>>, st: St)

  /** The visited bases of a class, its ancestors, and the ancestor table with the class filed. */
  datatype Lineage = Lineage(bases: seq<string>, ancestors: seq<string>, table: map<string, seq<string>>, st: St)

  /** The bases of a class, visited, with `Object` and `object` removed once each, then linearised. */
  function ClassLineage(env: Env, reg: TranslatorRegistry, st: St, c: Stmt): Result<Lineage>
    requires c.ClassDef?
  {
    var bs :- LowerAll(ClassEnv(env), reg, st, c.bases);
    var bases := RemoveFirst(RemoveFirst(bs.texts, "Object"), "object");
    var lin := Linearise(env.basesOf, bases, []);
    Ok(Lineage(bases, lin.1, lin.0[c.name := lin.1], bs.st))
  }

  /** The header of a class with a given lineage: the Crystal class name and the superclass list. */
  function ClassHeadOf(c: Stmt, l: Lineage): Result<ClassHead>
    requires c.ClassDef?
  {
    var supers :- UpperAll(l.bases);
    var rname :- UpperFirst(c.name);
    Ok(ClassHead(ClassLine(rname, supers), rname, l.ancestors, l.table, l.st))
  }

  /** Everything `visit_ClassDef` computes before writing its header line. */
  function ClassHeader(env: Env, reg: TranslatorRegistry, st: St, c: Stmt): Result<ClassHead>
    requires c.ClassDef?
  {
    var l :- ClassLineage(env, reg, st, c);
    ClassHeadOf(c, l)
  }

  /** The tables once a class header is written: the per-class lists reset and the class current and known. */
  function ClassDeclared(env: Env, c: Stmt, h: ClassHead): Env
    requires c.ClassDef?
  {
    ClassEnv(env).(className := Some(c.name), rclassName := Some(h.rname),
                   classNames := env.classNames + {c.name}, basesOf := h.table)
  }

  /** A written class header records a duplicate-free ancestor list for the class. */
  lemma ClassHeaderAncestors(env: Env, reg: TranslatorRegistry, st: St, c: Stmt)
    requires c.ClassDef?
    ensures ClassHeader(env, reg, st, c).Ok? ==>
      var h := ClassHeader(env, reg, st, c).value;
      c.name in h.table && h.table[c.name] == h.ancestors && Distinct(h.ancestors)
  {
    var bs := LowerAll(ClassEnv(env), reg, st, c.bases);
    if bs.Ok? {
      LineariseDistinct(env.basesOf, RemoveFirst(RemoveFirst(bs.value.texts, "Object"), "object"), []);
    }
  }

  // ---------------------------------------------------------------------
  // Class bodies

  /** A method decorated with exactly `@staticmethod` becomes a class function. */
  predicate IsStaticDef(s: Stmt)
  {
    s.FunctionDef? && |s.decorators| == 1 && s.decorators[0].Name? && s.decorators[0].id == "staticmethod"
  }

  /** The class functions of a body, in order. */
  function StaticNames(body: seq<Stmt>): seq<string>
  {
    if |body| == 0 then []
    else StaticNames(body[..|body| - 1]) + (if IsStaticDef(body[|body| - 1]) then [body[|body| - 1].name] else [])
  }

  /** The instance functions: every other method. */
  function InstanceNames(body: seq<Stmt>): seq<string>
  {
    if |body| == 0 then []
    else
      var s := body[|body| - 1];
      InstanceNames(body[..|body| - 1]) + (if s.FunctionDef? && !IsStaticDef(s) then [s.name] else [])
  }

  /** The lists once a class body is scanned: its class functions and instance functions appended. */
  function Scanned(env: Env, body: seq<Stmt>): Env
  {
    env.(classFunctions := env.classFunctions + StaticNames(body),
         selfFunctions := env.selfFunctions + InstanceNames(body))
  }

  /** The tables once a class body is opened: the body scanned and both lists filed under the class's name. */
  function ClassOpened(env: Env, c: Stmt): Env
    requires c.ClassDef?
  {
    var e := Scanned(env, c.body);
    e.(classesFunctions := e.classesFunctions[c.name := e.classFunctions],
       classesSelfFunctions := e.classesSelfFunctions[c.name := e.selfFunctions])
  }

  /** Every method of a body is a class function or an instance function, never both. */
  lemma {:induction false} MethodsPartitioned(body: seq<Stmt>, name: string)
    ensures name in StaticNames(body) || name in InstanceNames(body) <==>
      exists i :: 0 <= i < |body| && body[i].FunctionDef? && body[i].name == name
    decreases |body|
  {
    if |body| > 0 {
      var init := body[..|body| - 1];
      MethodsPartitioned(init, name);
      if exists i :: 0 <= i < |init| && init[i].FunctionDef? && init[i].name == name {
        var i :| 0 <= i < |init| && init[i].FunctionDef? && init[i].name == name;
        assert body[i] == init[i];
      }
      if exists i :: 0 <= i < |body| && body[i].FunctionDef? && body[i].name == name {
        var i :| 0 <= i < |body| && body[i].FunctionDef? && body[i].name == name;
        if i < |init| {
          assert init[i] == body[i];
        }
      }
    }
  }

  /** The instance method written for one static method, at the class body's level `k`. */
  function WrapperLines(u: string, k: int, f: string): string
  {
    Line(u, k, "# instance-method from @staticmethod")
    + Line(u, k, "def " + f + "(*args,**kwargs)")
    + Line(u, k + 1, "self.class." + f + "(*args,**kwargs)")
    + Line(u, k, "end")
  }

  lemma WrapperLinesAppend(p: string, u: string, k: int, f: string)
    ensures p + Line(u, k, "# instance-method from @staticmethod") + Line(u, k, "def " + f + "(*args,**kwargs)")
            + Line(u, k + 1, "self.class." + f + "(*args,**kwargs)") + Line(u, k, "end")
         == p + WrapperLines(u, k, f)
  {
    Four(p, Line(u, k, "# instance-method from @staticmethod"), Line(u, k, "def " + f + "(*args,**kwargs)"),
         Line(u, k + 1, "self.class." + f + "(*args,**kwargs)"), Line(u, k, "end"));
  }

  function AllWrapperLines(u: string, k: int, fs: seq<string>): string
  {
    if |fs| == 0 then "" else AllWrapperLines(u, k, fs[..|fs| - 1]) + WrapperLines(u, k, fs[|fs| - 1])
  }

  /**
   * The loop that files each method's defaults table under the class or
   * instance functions; a method whose table is missing raises `KeyError`.
   */
  function ArgsTables(body: seq<Stmt>, tables: map<string, seq<Slot>>,
                      cls: map<string, seq<Slot>>, inst: map<string, seq<Slot>>): Result<(map<string, seq<Slot>>, map<string, seq<Slot>>)>
    decreases |body|
  {
    if |body| == 0 then Ok((cls, inst))
    else if !body[0].FunctionDef? then ArgsTables(body[1..], tables, cls, inst)
    else if body[0].name !in tables then Err(RuntimeFault("KeyError"))
    else if IsStaticDef(body[0]) then ArgsTables(body[1..], tables, cls[body[0].name := tables[body[0].name]], inst)
    else ArgsTables(body[1..], tables, cls, inst[body[0].name := tables[body[0].name]])
  }

  // ---------------------------------------------------------------------
  // Import

  predicate Truthy(o: Option<string>)
  {
    o.Some? && o.value != ""
  }

  /** The module name `require_lookup` is asked for: slash-separated when the registry has a require for it. */
  function ImportPath(reg: TranslatorRegistry, mod: string): (r: string)
    ensures |r| == |mod|
    ensures !Truthy(reg.RequireLookupOrNone(mod)) ==> r == mod
  {
    if Truthy(reg.RequireLookupOrNone(mod)) then ReplaceChar(mod, '.', '/') else mod
  }

  /** For a module with a require, each dot of the path becomes a slash and every other character is kept. */
  lemma ImportPathChars(reg: TranslatorRegistry, mod: string, i: nat)
    requires Truthy(reg.RequireLookupOrNone(mod)) && i < |mod|
    ensures ImportPath(reg, mod)[i] == if mod[i] == '.' then '/' else mod[i]
  {
  }

  /** The require an import writes, if any. */
  function RequireOf(reg: TranslatorRegistry, mod: string): (r: Option<string>)
    ensures r.Some? ==> r.value != ""
    ensures ImportPath(reg, mod) !in reg.requireOf ==> r == if mod != "" then Some(ImportPath(reg, mod)) else None
  {
    var req := reg.RequireLookup(ImportPath(reg, mod));
    if Truthy(req) then req else None
  }

  /** The alias table after an import: `import m as a` records `a` for a module the registry has a require for. */
  function AliasesAfter(reg: TranslatorRegistry, aliases: map<string, string>, mod: string, asname: Option<string>): map<string, string>
  {
    if Truthy(reg.RequireLookupOrNone(mod)) && asname.Some?
    then aliases[(if asname.value != "" then asname.value else ImportPath(reg, mod)) := ImportPath(reg, mod)]
    else aliases
  }

  /** `import numpy as np` makes `np` stand for `numpy`; `import os as o` records no alias. */
  lemma ImportAliases(reg: TranslatorRegistry, aliases: map<string, string>)
    requires Registry.Standard(reg)
    ensures AliasesAfter(reg, aliases, "numpy", Some("np")) == aliases["np" := "numpy"]
    ensures AliasesAfter(reg, aliases, "os", Some("o")) == aliases
  {
    Registry.StandardLookups(reg);
    assert ReplaceChar("numpy", '.', '/') == "numpy";
  }

  /** `import numpy` requires `num`; `import os` requires nothing; an unknown module requires itself. */
  lemma ImportRequires(reg: TranslatorRegistry, mod: string)
    requires Registry.Standard(reg)
    ensures RequireOf(reg, "numpy") == Some("num")
    ensures RequireOf(reg, "os") == None
    ensures mod !in reg.requireOf && mod != "" ==> RequireOf(reg, mod) == Some(mod)
  {
    Registry.StandardLookups(reg);
    assert ReplaceChar("numpy", '.', '/') == "numpy";
  }

  // ---------------------------------------------------------------------
  // Expression statements

  /** `pass`, `break` and `continue` each write one fixed line. */
  function KeywordText(s: Stmt): string
    requires s.Pass? || s.Break? || s.Continue?
  {
    if s.Pass? then "# pass" else if s.Break? then "break" else "next"
  }

  /** `val[1:-1]`. */
  function Inner(s: string): string
  {
    if |s| >= 2 then s[1..|s| - 1] else ""
  }

  /** `re.sub('^' + indent, '', s)` for an indentation of spaces. */
  function StripPrefix(s: string, p: string): (r: string)
    ensures StartsWith(s, p) ==> s == p + r
    ensures !StartsWith(s, p) ==> r == s
  {
    if StartsWith(s, p) then s[|p|..] else s
  }

  /** A docstring statement: one `# ` comment line per line of the text. */
  function CommentLines(u: string, k: int, parts: seq<string>): (r: string)
    ensures |parts| == 0 <==> r == ""
    decreases |parts|
  {
    if |parts| == 0 then ""
    else CommentLines(u, k, parts[..|parts| - 1]) + Line(u, k, "# " + StripPrefix(parts[|parts| - 1], Repeat(u, k)))
  }

  /** The comment text starts with the first part's comment line and ends with the last part's. */
  lemma {:induction false} CommentLinesEnds(u: string, k: int, parts: seq<string>)
    requires |parts| > 0
    ensures StartsWith(CommentLines(u, k, parts), Line(u, k, "# " + StripPrefix(parts[0], Repeat(u, k))))
    ensures EndsWith(CommentLines(u, k, parts), Line(u, k, "# " + StripPrefix(parts[|parts| - 1], Repeat(u, k))))
    decreases |parts|
  {
    var front := CommentLines(u, k, parts[..|parts| - 1]);
    var last := Line(u, k, "# " + StripPrefix(parts[|parts| - 1], Repeat(u, k)));
    Affixes(front, last);
    if |parts| > 1 {
      CommentLinesEnds(u, k, parts[..|parts| - 1]);
      assert parts[..|parts| - 1][0] == parts[0];
      var first := Line(u, k, "# " + StripPrefix(parts[0], Repeat(u, k)));
      assert (front + last)[..|first|] == front[..|first|];
    }
  }

  /** A docstring `a` at level 0 becomes the comment `# a`, and a two-line one two comments. */
  lemma DocstringExample(u: string)
    ensures CommentLines(u, 0, Split("a", '\n')) == "# a\n"
    ensures CommentLines(u, 0, Split("a\nb", '\n')) == "# a\n# b\n"
  {
    SplitSingle("a", '\n');
    SplitSingle("b", '\n');
    SplitPrefix("a", "b", '\n');
    assert "a" + ['\n'] + "b" == "a\nb";
    assert Split("a\nb", '\n') == ["a", "b"];
    CommentLineAtZero(u, "a");
    CommentLineAtZero(u, "b");
    assert ["a", "b"][..1] == ["a"];
    assert ["a"][..0] == [];
    assert CommentLines(u, 0, ["a"]) == "" + "# a\n";
    assert CommentLines(u, 0, ["a", "b"]) == CommentLines(u, 0, ["a"]) + "# b\n";
  }

  /** At level 0 a comment line is the text behind `# `, with nothing stripped. */
  lemma CommentLineAtZero(u: string, s: string)
    ensures Line(u, 0, "# " + StripPrefix(s, Repeat(u, 0))) == "# " + s + "\n"
  {
    assert StartsWith(s, "");
    assert s[0..] == s;
    assert "" + ("# " + s) + "\n" == "# " + s + "\n";
  }

  // ---------------------------------------------------------------------
  // Bodies of statements without a body of their own

  /** Expression statements, `return` and the three keywords: what they write depends only on expression visits. */
  predicate Plain(s: Stmt)
  {
    s.ExprStmt? || s.Return? || s.Pass? || s.Break? || s.Continue?
  }

  predicate AllPlain(body: seq<Stmt>)
  {
    forall i :: 0 <= i < |body| ==> Plain(body[i])
  }

  /**
   * What a plain statement writes at level `k`, and the visit state after
   * it: a docstring's comment lines or the expression's line, `return`
   * with or without its value, `# pass`, `break` or `next`.
   */
  function PlainLines(env: Env, reg: TranslatorRegistry, st: St, u: string, k: int, s: Stmt): (r: Result<(string, St)>)
    requires Plain(s)
    ensures r.Ok? ==> r.value.1.severity >= st.severity
    ensures !s.ExprStmt? && !(s.Return? && s.retValue.Some?) ==> r.Ok? && r.value.1 == st
    ensures s.ExprStmt? ==> (r.Ok? <==> Lowering.Lower(env, reg, st, s.expr, None).Ok?)
    ensures s.Return? && s.retValue.Some? ==> (r.Ok? <==> Lowering.Lower(env, reg, st, s.retValue.value, None).Ok?)
  {
    match s
    case ExprStmt(e) =>
      var v :- Lowering.Lower(env, reg, st, e, None);
      Ok((if IsStr(e) then CommentLines(u, k, Split(Inner(v.text), '\n')) else Line(u, k, v.text), v.st))
    case Return(value) =>
      if value.None? then Ok((Line(u, k, "return"), st))
      else
        var v :- Lowering.Lower(env, reg, st, value.value, None);
        Ok((Line(u, k, "return " + v.text), v.st))
    case _ => Ok((Line(u, k, KeywordText(s)), st))
  }

  /** The texts of a body of plain statements in order, threading the state, stopping at the first error. */
  function BodyLines(env: Env, reg: TranslatorRegistry, st: St, u: string, k: int, body: seq<Stmt>): (r: Result<(string, St)>)
    requires AllPlain(body)
    ensures r.Ok? ==> r.value.1.severity >= st.severity
    ensures |body| > 0 && PlainLines(env, reg, st, u, k, body[0]).Err? ==> r.Err?
    decreases |body|
  {
    if |body| == 0 then Ok(("", st))
    else
      var first :- PlainLines(env, reg, st, u, k, body[0]);
      var rest :- BodyLines(env, reg, first.1, u, k, body[1..]);
      Ok((first.0 + rest.0, rest.1))
  }

  /** Text already written in front of what the rest of a body writes. */
  function PrependLines(t: string, r: Result<(string, St)>): Result<(string, St)>
  {
    match r
    case Ok(x) => Ok((t + x.0, x.1))
    case Err(e) => Err(e)
  }

  lemma PrependLinesStep(t: string, x: string, r: Result<(string, St)>)
    ensures PrependLines(t, PrependLines(x, r)) == PrependLines(t + x, r)
  {
    if r.Ok? {
      Assoc(t, x, r.value.0);
    }
  }

  /**
   * A plain statement's visit went as `q` says: it succeeded exactly when
   * `q` did, and then left `q`'s state and appended `q`'s text.
   */
  predicate VisitedAs(q: Result<(string, St)>, ok: bool, before: string, after: string, st: St)
  {
    (ok <==> q.Ok?) && (ok ==> st == q.value.1 && after == before + q.value.0)
  }

  /**
   * Part way through a body: the first `i` statements wrote `done`, and
   * with the rest still to come the whole body's outcome is `whole`.
   */
  predicate Progress(env: Env, reg: TranslatorRegistry, st: St, u: string, k: int, body: seq<Stmt>, i: nat,
                     done: string, whole: Result<(string, St)>)
  {
    i <= |body| && AllPlain(body) && PrependLines(done, BodyLines(env, reg, st, u, k, body[i..])) == whole
  }

  /** Before the first statement nothing is written and the whole body is still to come. */
  lemma ProgressStart(env: Env, reg: TranslatorRegistry, st: St, u: string, k: int, body: seq<Stmt>)
    requires AllPlain(body)
    ensures Progress(env, reg, st, u, k, body, 0, "", BodyLines(env, reg, st, u, k, body))
  {
    assert body[0..] == body;
    var w := BodyLines(env, reg, st, u, k, body);
    if w.Ok? {
      assert "" + w.value.0 == w.value.0;
    }
  }

  /** One step through a body: a failing statement fails the whole body; otherwise its text `t` joins what is written. */
  lemma BodyLinesAdvance(env: Env, reg: TranslatorRegistry, st: St, u: string, k: int, body: seq<Stmt>, i: nat,
                         p0: string, done: string, whole: Result<(string, St)>, ok: bool, after: string, st': St)
    returns (t: string)
    requires Progress(env, reg, st, u, k, body, i, done, whole) && i < |body|
    requires VisitedAs(PlainLines(env, reg, st, u, k, body[i]), ok, p0 + done, after, st')
    ensures !ok ==> whole.Err?
    ensures ok ==> after == p0 + (done + t) && Progress(env, reg, st', u, k, body, i + 1, done + t, whole)
  {
    assert body[i..][0] == body[i];
    assert body[i..][1..] == body[i + 1..];
    var q := PlainLines(env, reg, st, u, k, body[i]);
    if q.Ok? {
      t := q.value.0;
      PrependLinesStep(done, q.value.0, BodyLines(env, reg, q.value.1, u, k, body[i + 1..]));
      Assoc(p0, done, q.value.0);
    } else {
      t := "";
    }
  }

  /** After the last statement the whole body wrote exactly `done`. */
  lemma ProgressDone(env: Env, reg: TranslatorRegistry, st: St, u: string, k: int, body: seq<Stmt>,
                     done: string, whole: Result<(string, St)>)
    requires Progress(env, reg, st, u, k, body, |body|, done, whole)
    ensures whole == Ok((done, st))
  {
    assert body[|body|..] == [];
    assert done + "" == done;
  }

  /** A body led by a statement that succeeds is that statement's text in front of the rest. */
  lemma BodyLinesCons(env: Env, reg: TranslatorRegistry, st: St, u: string, k: int, s: Stmt, rest: seq<Stmt>, t: string, st': St)
    requires Plain(s) && AllPlain(rest) && PlainLines(env, reg, st, u, k, s) == Ok((t, st'))
    ensures AllPlain([s] + rest)
    ensures BodyLines(env, reg, st, u, k, [s] + rest) == PrependLines(t, BodyLines(env, reg, st', u, k, rest))
  {
    assert ([s] + rest)[0] == s && ([s] + rest)[1..] == rest;
  }

  /** At level 0 a line is its text and a newline. */
  lemma LineAtZero(u: string, t: string)
    ensures Line(u, 0, t) == t + "\n"
  {
    assert Repeat(u, 0) == "";
    assert "" + t == t;
  }

  /** A keyword statement or a bare `return` writes its one fixed line and keeps the state. */
  lemma FixedPlain(env: Env, reg: TranslatorRegistry, st: St, u: string, k: int, s: Stmt)
    requires s.Pass? || s.Break? || s.Continue? || s == Return(None)
    ensures PlainLines(env, reg, st, u, k, s) == Ok((Line(u, k, if s.Return? then "return" else KeywordText(s)), st))
  {
  }

  /** In front of a body that keeps the state, a keyword statement or a bare `return` adds its line. */
  lemma FixedThen(env: Env, reg: TranslatorRegistry, st: St, u: string, k: int, s: Stmt, rest: seq<Stmt>, t: string)
    requires s.Pass? || s.Break? || s.Continue? || s == Return(None)
    requires AllPlain(rest) && BodyLines(env, reg, st, u, k, rest) == Ok((t, st))
    ensures AllPlain([s] + rest)
    ensures BodyLines(env, reg, st, u, k, [s] + rest) == Ok((Line(u, k, if s.Return? then "return" else KeywordText(s)) + t, st))
  {
    FixedPlain(env, reg, st, u, k, s);
    BodyLinesCons(env, reg, st, u, k, s, rest, Line(u, k, if s.Return? then "return" else KeywordText(s)), st);
  }

  /** Keyword statements change no visit state and write one fixed line each. */
  lemma KeywordLines(env: Env, reg: TranslatorRegistry, st: St, u: string, k: int)
    ensures BodyLines(env, reg, st, u, k, [Pass, Continue, Return(None)])
         == Ok((Line(u, k, "# pass") + Line(u, k, "next") + Line(u, k, "return"), st))
  {
    var b1: seq<Stmt> := [Return(None)];
    var b2: seq<Stmt> := [Continue] + b1;
    assert b1 == [Return(None)] + [];
    assert [Pass] + b2 == [Pass, Continue, Return(None)];
    assert BodyLines(env, reg, st, u, k, []) == Ok(("", st));
    FixedThen(env, reg, st, u, k, Return(None), [], "");
    assert Line(u, k, "return") + "" == Line(u, k, "return");
    FixedThen(env, reg, st, u, k, Continue, b1, Line(u, k, "return"));
    FixedThen(env, reg, st, u, k, Pass, b2, Line(u, k, "next") + Line(u, k, "return"));
    Assoc(Line(u, k, "# pass"), Line(u, k, "next"), Line(u, k, "return"));
  }

  /** At level 0 the three keyword lines read `# pass`, `next` and `return`. */
  lemma KeywordTextAtZero(u: string)
    ensures Line(u, 0, "# pass") + Line(u, 0, "next") + Line(u, 0, "return") == "# pass\nnext\nreturn\n"
  {
    LineAtZero(u, "# pass");
    LineAtZero(u, "next");
    LineAtZero(u, "return");
    assert "# pass" + "\n" + ("next" + "\n") + ("return" + "\n") == "# pass\nnext\nreturn\n";
  }

  /** At level 0 the keyword body is `# pass`, `next` and `return`, one per line. */
  lemma KeywordLinesAtZero(env: Env, reg: TranslatorRegistry, st: St, u: string)
    ensures BodyLines(env, reg, st, u, 0, [Pass, Continue, Return(None)]) == Ok(("# pass\nnext\nreturn\n", st))
  {
    KeywordLines(env, reg, st, u, 0);
    KeywordTextAtZero(u);
  }

  /** A statement that only evaluates a simple name writes that name's line and keeps the state. */
  lemma SimplePlain(env: Env, reg: TranslatorRegistry, st: St, u: string, k: int, e: Node)
    requires env.mode != NoError && Simple(e)
    ensures PlainLines(env, reg, st, u, k, ExprStmt(e)) == Ok((Line(u, k, SimpleText(e)), st))
    ensures PlainLines(env, reg, st, u, k, Return(Some(e))) == Ok((Line(u, k, "return " + SimpleText(e)), st))
  {
    SimpleLowers(env, reg, st, e);
    assert !IsStr(e);
  }

  /** `f` on a line of its own, then `return x`, for two simple names. */
  lemma ExprThenReturn(env: Env, reg: TranslatorRegistry, st: St, u: string, k: int, f: Node, x: Node)
    requires env.mode != NoError && Simple(f) && Simple(x)
    ensures BodyLines(env, reg, st, u, k, [ExprStmt(f), Return(Some(x))])
         == Ok((Line(u, k, SimpleText(f)) + Line(u, k, "return " + SimpleText(x)), st))
  {
    var lf, lx := Line(u, k, SimpleText(f)), Line(u, k, "return " + SimpleText(x));
    SimplePlain(env, reg, st, u, k, f);
    SimplePlain(env, reg, st, u, k, x);
    var b1: seq<Stmt> := [Return(Some(x))];
    assert b1 == [Return(Some(x))] + [];
    assert [ExprStmt(f)] + b1 == [ExprStmt(f), Return(Some(x))];
    assert BodyLines(env, reg, st, u, k, []) == Ok(("", st));
    BodyLinesCons(env, reg, st, u, k, Return(Some(x)), [], lx, st);
    assert lx + "" == lx;
    BodyLinesCons(env, reg, st, u, k, ExprStmt(f), b1, lf, st);
  }
}
