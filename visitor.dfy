/**
 * The translator class `RB` as a visitor over statements: its tables,
 * the output buffer it writes to, the statement visitors modelled, and
 * `convert_py2cr`, which primes the tables with sibling modules before
 * translating the target.
 */
module Visitor {
  import opened Wrappers
  import opened Strings
  import opened Ast
  import opened RbHelpers
  import opened Translator
  import opened Lowering
  import opened Statements
  import Registry
  import Formatter

  /** The part of the visitor state every statement visit moves forward. */
  datatype Stamp = Stamp(mode: Mode, result: Severity, dummy: nat, functionStack: seq<string>, level: int, pending: string)

  /**
   * From `a` to `b`: the mode is kept, the status and the fresh-name
   * counter never go down, text is only appended, and a visit that
   * succeeds leaves the function stack and the indentation as it found them.
   */
  predicate Follows(a: Stamp, b: Stamp, ok: bool)
  {
    b.mode == a.mode && b.result >= a.result && b.dummy >= a.dummy && a.pending <= b.pending
    && (ok ==> b.functionStack == a.functionStack && b.level == a.level)
  }

  lemma FollowsTrans(a: Stamp, b: Stamp, c: Stamp, ok1: bool, ok2: bool)
    requires Follows(a, b, ok1) && Follows(b, c, ok2)
    ensures Follows(a, c, ok1 && ok2)
  {
    assert a.pending == b.pending[..|a.pending|] == c.pending[..|b.pending|][..|a.pending|];
  }

  /** What was appended to a text. */
  lemma Extends(p: string, q: string)
    requires p <= q
    ensures q == p + q[|p|..]
  {
  }

  /** Statements the module pass visits: the others are skipped in `NoError` mode. */
  predicate Declares(s: Stmt)
  {
    s.FunctionDef? || s.ClassDef? || s.Import?
  }

  /** Texts rendered so far in front of what the rest of a loop renders. */
  ghost function PrependOuts(texts: seq<string>, r: Result<Outs>): Result<Outs>
  {
    match r
    case Ok(x) => Ok(Outs(texts + x.texts, x.st))
    case Err(e) => Err(e)
  }

  lemma PrependOutsNothing(r: Result<Outs>)
    ensures PrependOuts([], r) == r
  {
    if r.Ok? {
      assert [] + r.value.texts == r.value.texts;
    }
  }

  lemma PrependOutsStep(texts: seq<string>, t: string, r: Result<Outs>)
    ensures PrependOuts(texts, PrependOuts([t], r)) == PrependOuts(texts + [t], r)
  {
    if r.Ok? {
      assert texts + ([t] + r.value.texts) == (texts + [t]) + r.value.texts;
    }
  }

  /** The `require` line an import writes, given the modules already required. */
  function RequireLine(reg: TranslatorRegistry, imports: seq<string>, u: string, k: int, mod: string): string
  {
    var req := RequireOf(reg, mod);
    if req.Some? && mod !in imports then Line(u, k, "require \"" + req.value + "\"") else ""
  }

  /** The tables of a fresh visitor: stop mode, no class or function, empty tables, the standard rules. */
  function InitialEnv(): Env
  {
    Env(Stop, None, None, {}, map[], [], [], [], map[], [], [], [], map[], map[], map[], map[], [], map[], Registry.Apply)
  }

  /** The expression state of a fresh visitor: status OK, list-style tuples, outside any call. */
  function InitialSt(): St
  {
    St(StatusOk, "[]", false, 0, false)
  }

  class RB {
    /** The translator registry the module builds once. */
    const reg: TranslatorRegistry
    /** The output buffer. */
    const fmt: Formatter.Formatter

    /**
     * The tables an expression visit reads: the mode, the current class
     * and function, their names and arguments, the per-class and
     * per-function tables, the lambda names and the module aliases.
     */
    var env: Env
    /** The fields an expression visit updates, the result status among them. */
    var st: St
    /** Counter of `new_dummy`. */
    var dummy: nat
    /** Defaults tables of the methods of the class being visited. */
    var functionsRbArgsDefault: map<string, seq<Slot>>
    var selfFunctionsArgs: map<string, seq<Slot>>
    var classFunctionsArgs: map<string, seq<Slot>>
    /** Modules already required. */
    var imports: seq<string>

    ghost predicate Valid()
      reads this, fmt
    {
      fmt.Valid()
    }

    function Snapshot(): Stamp
      reads this, fmt
    {
      Stamp(env.mode, st.severity, dummy, env.functionStack, fmt.indentation, fmt.Pending())
    }

    /** A fresh visitor: stop mode, status OK, list-style tuples, empty tables and two-space indentation. */
    constructor (registry: TranslatorRegistry)
      ensures Valid() && fresh(fmt)
      ensures reg == registry && dummy == 0 && imports == []
      ensures env == InitialEnv() && st == InitialSt()
      ensures fmt.indentUnit == "  " && fmt.indentation == 0 && fmt.Pending() == ""
    {
      reg := registry;
      fmt := new Formatter.Formatter("  ");
      env := InitialEnv();
      st := InitialSt();
      dummy := 0;
      functionsRbArgsDefault := map[];
      selfFunctionsArgs := map[];
      classFunctionsArgs := map[];
      imports := [];
    }

    /**
     * `mode`: the operation mode the next visits compare against. The
     * caller passes a plain integer where the visitor compares against
     * members of an `Enum`; the model takes the mode as the member meant.
     */
    method SetMode(m: Mode)
      modifies this`env
      ensures env == old(env).(mode := m)
    {
      env := env.(mode := m);
    }

    /**
     * `set_result`: the status only goes up. The source orders members of
     * a plain `Enum` with `<`, which Python refuses; the model orders the
     * statuses as their values are meant to be ordered.
     */
    method SetResult(s: Severity)
      modifies this`st
      ensures st == old(st).(severity := Raise(old(st.severity), s))
    {
      if st.severity < s {
        st := st.(severity := s);
      }
    }

    method GetResult() returns (r: Severity)
      ensures r == st.severity
    {
      r := st.severity;
    }

    /** `maybewarn`: the status rises to a warning in warning mode only. */
    method MaybeWarn()
      modifies this`st
      ensures st == Warn(env, old(st))
    {
      if env.mode == Warning {
        SetResult(IncludeWarning);
      }
    }

    /** `new_dummy`: a name not handed out before. */
    method NewDummy() returns (name: string)
      modifies this`dummy
      ensures name == DummyName(old(dummy)) && dummy == old(dummy) + 1
      ensures forall k :: 0 <= k < old(dummy) ==> name != DummyName(k)
    {
      name := DummyName(dummy);
      forall k | 0 <= k < dummy
        ensures name != DummyName(k)
      {
        DummyNamesDistinct(k, dummy);
      }
      dummy := dummy + 1;
    }

    /** `write(text)`: one line at the current indentation. */
    method Emit(text: string)
      requires Valid()
      modifies fmt
      ensures Valid() && fmt.indentation == old(fmt.indentation)
      ensures fmt.Pending() == old(fmt.Pending()) + Line(fmt.indentUnit, fmt.indentation, text)
      ensures old(fmt.Pending()) <= fmt.Pending()
    {
      fmt.WriteLine(text);
    }

    /** `visit` of an expression: the text and the state the expression visitor computes. */
    method VisitExpr(n: Node, crytype: Option<Node>) returns (r: Result<Out>)
      modifies this`st
      ensures r == Lowering.Lower(env, reg, old(st), n, crytype)
      ensures r.Ok? ==> st == r.value.st
      ensures st.severity >= old(st.severity)
    {
      r := Lowering.Lower(env, reg, st, n, crytype);
      if r.Ok? {
        st := r.value.st;
      }
    }

    // -------------------------------------------------------------------
    // visit_FunctionDef: decorators and parameters

    /** One decorator of a method: a static, property or setter mark, or an unknown plain name. */
    method ScanOne(name: string, first: Node, d: Node, fl: Flags) returns (r: Result<Scan>)
      modifies this`st
      ensures r == ScanDecorator(env, reg, old(st), name, first, d, fl)
      ensures r.Ok? ==> st == r.value.st
      ensures st.severity >= old(st.severity)
    {
      match d {
      case Name(id) =>
        if id == "classmethod" || id == "staticmethod" {
          return Ok(Scan(fl.(isStatic := true), st));
        } else if id == "property" {
          return Ok(Scan(fl.(isProperty := true), st));
        } else if env.mode != NoError {
          return Err(RuntimeFault("AttributeError"));
        }
        return Ok(Scan(fl, st));
      case Attribute(_, _) =>
        var o := VisitExpr(first, None);
        if o.Err? {
          return Err(o.error);
        }
        return Ok(Scan(if o.value.text == name + ".setter" then fl.(isSetter := true) else fl, st));
      case _ =>
        return Ok(Scan(fl, st));
      }
    }

    /** The loop over the decorators of a method; `first` is the decorator an attribute decorator compares. */
    method ScanDecorators(name: string, first: Node, ds: seq<Node>) returns (r: Result<Scan>)
      modifies this`st
      ensures r == ScanAll(env, reg, old(st), name, first, ds, NoFlags)
      ensures r.Ok? ==> st == r.value.st
      ensures st.severity >= old(st.severity)
    {
      var fl := NoFlags;
      var i := 0;
      assert ds[0..] == ds;
      while i < |ds|
        invariant 0 <= i <= |ds| && st.severity >= old(st.severity)
        invariant ScanAll(env, reg, st, name, first, ds[i..], fl) == ScanAll(env, reg, old(st), name, first, ds, NoFlags)
      {
        assert ds[i..][0] == ds[i] && ds[i..][1..] == ds[i + 1..];
        var s := ScanOne(name, first, ds[i], fl);
        if s.Err? {
          return s;
        }
        fl := s.value.flags;
        i := i + 1;
      }
      return Ok(Scan(fl, st));
    }

    /** The decorator handling of a function: only methods scan their decorators. */
    method Decorate(name: string, ds: seq<Node>) returns (r: Result<Scan>)
      modifies this`st
      ensures r == Decorations(env, reg, old(st), name, ds)
      ensures r.Ok? ==> st == r.value.st
      ensures st.severity >= old(st.severity)
    {
      if |ds| == 0 || !InClass(env) {
        return Ok(Scan(NoFlags, st));
      }
      var s := ScanDecorators(name, ds[0], ds);
      if s.Err? || s.value.flags.isStatic || s.value.flags.isProperty || s.value.flags.isSetter {
        return s;
      }
      var o := VisitExpr(ds[0], None);
      if o.Err? {
        return Err(o.error);
      }
      MaybeWarn();
      return Ok(Scan(s.value.flags, st));
    }

    /** A positional parameter's default, visited when there is one. */
    method VisitDefault(d: Option<Node>) returns (r: Result<Out>)
      modifies this`st
      ensures r == DefaultOf(env, reg, old(st), d)
      ensures r.Ok? ==> st == r.value.st
      ensures st.severity >= old(st.severity)
    {
      if d.None? {
        return Ok(Out("", st));
      }
      r := VisitExpr(d.value, None);
    }

    /** A keyword-only parameter's default; without one, `visit(None)` fails outside the module pass. */
    method VisitKwDefault(d: Option<Node>) returns (r: Result<Out>)
      modifies this`st
      ensures r == KwDefaultOf(env, reg, old(st), d)
      ensures r.Ok? ==> st == r.value.st
      ensures st.severity >= old(st.severity)
    {
      if d.None? {
        if env.mode != NoError {
          return Err(RuntimeFault("AttributeError"));
        }
        return Ok(Out("", st));
      }
      r := VisitExpr(d.value, None);
    }

    /** One positional parameter: the annotation, then the default. */
    method RenderArg(a: Arg, d: Option<Node>) returns (r: Result<Out>)
      modifies this`st
      ensures r == PositionalParam(env, reg, old(st), a, d)
      ensures r.Ok? ==> st == r.value.st
      ensures st.severity >= old(st.severity)
    {
      var anno := AnnotationText(a.annotation);
      if anno.Err? {
        return Err(anno.error);
      }
      var o := VisitDefault(d);
      if o.Err? {
        return Err(o.error);
      }
      return Ok(Out(ParamText(a.name, anno.value, if d.Some? then Some(o.value.text) else None), st));
    }

    /** The loop over `zip(args, defaults)`: the rendered parameters and their slots. */
    method RenderArgs(args: seq<Arg>, ds: seq<Option<Node>>) returns (r: Result<Rendered>, slots: seq<Slot>)
      modifies this`st
      ensures r == RenderPositional(env, reg, old(st), args, ds)
      ensures r.Ok? ==> st == r.value.st && slots == SlotsOf(args, ds)
      ensures st.severity >= old(st.severity)
    {
      var texts: seq<string> := [];
      slots := [];
      var n := Min(|args|, |ds|);
      var i := 0;
      assert args[0..] == args && ds[0..] == ds;
      PrependNothing(RenderPositional(env, reg, st, args, ds));
      while i < n
        invariant 0 <= i <= n && st.severity >= old(st.severity)
        invariant Prepend(texts, RenderPositional(env, reg, st, args[i..], ds[i..])) == RenderPositional(env, reg, old(st), args, ds)
        invariant slots == SlotsOf(args, ds)[..i]
      {
        assert args[i..][0] == args[i] && args[i..][1..] == args[i + 1..];
        assert ds[i..][0] == ds[i] && ds[i..][1..] == ds[i + 1..];
        var o := RenderArg(args[i], ds[i]);
        if o.Err? {
          return Err(o.error), slots;
        }
        PrependStep(texts, o.value.text, RenderPositional(env, reg, st, args[i + 1..], ds[i + 1..]));
        texts := texts + [o.value.text];
        SlotsOfStep(args, ds, i);
        slots := slots + [if ds[i].None? then NoDefault else Named(args[i].name)];
        i := i + 1;
      }
      assert texts + [] == texts;
      r := Ok(Rendered(texts, st));
    }

    /** The loop over the keyword-only parameters: `name = default` and the name as slot. */
    method RenderKwArgs(kws: seq<Arg>, kds: seq<Option<Node>>) returns (r: Result<Rendered>, slots: seq<Slot>)
      modifies this`st
      ensures r == RenderKwOnly(env, reg, old(st), kws, kds)
      ensures r.Ok? ==> st == r.value.st && slots == KwOnlySlots(kws, kds)
      ensures st.severity >= old(st.severity)
    {
      var texts: seq<string> := [];
      slots := [];
      var n := Min(|kws|, |kds|);
      var i := 0;
      assert kws[0..] == kws && kds[0..] == kds;
      PrependNothing(RenderKwOnly(env, reg, st, kws, kds));
      while i < n
        invariant 0 <= i <= n && st.severity >= old(st.severity)
        invariant Prepend(texts, RenderKwOnly(env, reg, st, kws[i..], kds[i..])) == RenderKwOnly(env, reg, old(st), kws, kds)
        invariant slots == KwOnlySlots(kws, kds)[..i]
      {
        assert kws[i..][0] == kws[i] && kws[i..][1..] == kws[i + 1..];
        assert kds[i..][0] == kds[i] && kds[i..][1..] == kds[i + 1..];
        var o := VisitKwDefault(kds[i]);
        if o.Err? {
          return Err(o.error), slots;
        }
        var text := o.value.text;
        PrependStep(texts, kws[i].name + " = " + text, RenderKwOnly(env, reg, st, kws[i + 1..], kds[i + 1..]));
        texts := texts + [kws[i].name + " = " + text];
        KwOnlySlotsStep(kws, kds, i);
        slots := slots + [Named(kws[i].name)];
        i := i + 1;
      }
      assert texts + [] == texts;
      r := Ok(Rendered(texts, st));
    }

    /** `*args` or `**kwargs`, the parameter visited as an expression. */
    method StarArg(prefix: string, a: Option<Arg>) returns (r: Result<Rendered>)
      modifies this`st
      ensures r == StarParam(env, reg, old(st), prefix, a)
      ensures r.Ok? ==> st == r.value.st
      ensures st.severity >= old(st.severity)
    {
      if a.None? {
        return Ok(Rendered([], st));
      }
      var o := VisitExpr(ArgNode(a.value.name), None);
      if o.Err? {
        return Err(o.error);
      }
      return Ok(Rendered([prefix + o.value.text], st));
    }

    /** `*args`, the keyword-only parameters and `**kwargs`, with their slots. */
    method RestArgs(p: Arguments) returns (r: Result<Rendered>, slots: seq<Slot>)
      modifies this`st
      ensures r == RestParams(env, reg, old(st), p)
      ensures r.Ok? ==> st == r.value.st && slots == RestSlots(p)
      ensures st.severity >= old(st.severity)
    {
      var va := StarArg("*", p.vararg);
      if va.Err? {
        return Err(va.error), [];
      }
      var kw, kslots := RenderKwArgs(p.kwonlyargs, p.kwDefaults);
      if kw.Err? {
        return Err(kw.error), [];
      }
      var ka := StarArg("**", p.kwarg);
      if ka.Err? {
        return Err(ka.error), [];
      }
      r := Ok(Rendered(va.value.texts + kw.value.texts + ka.value.texts, st));
      slots := (if p.vararg.Some? then [StarMarker] else []) + kslots
               + (if p.kwarg.Some? then [StarStarMarker] else []);
    }

    /** The parameter list of a header and its defaults table; `checked` applies the `self` check. */
    method Params(p: Arguments, checked: bool) returns (r: Result<ParamList>)
      modifies this`st
      ensures r == HeadParams(env, reg, old(st), p, checked)
      ensures r.Ok? ==> st == r.value.st
      ensures st.severity >= old(st.severity)
    {
      var pos, slots := RenderArgs(p.args, AlignedDefaults(|p.args|, p.defaults));
      if pos.Err? {
        return Err(pos.error);
      }
      assert slots == PositionalSlots(p.args, p.defaults);
      var kept := SelfDropped(pos.value.texts, checked);
      if kept.Err? {
        return Err(kept.error);
      }
      if checked {
        slots := slots[1..];
      }
      var rest, rslots := RestArgs(p);
      if rest.Err? {
        return Err(rest.error);
      }
      DefaultsTableSplit(p, checked);
      return Ok(ParamList(kept.value + rest.value.texts, slots + rslots, st));
    }

    /** The function pushed, its decorators scanned and its parameters rendered. */
    method Sign(f: Stmt) returns (r: Result<Signature>)
      requires f.FunctionDef?
      modifies this`env, this`st
      ensures r == FunctionSignature(old(env), reg, old(st), f)
      ensures r.Ok? ==> env == ParamEnv(old(env), f) && st == r.value.params.st
      ensures env.mode == old(env).mode && st.severity >= old(st.severity)
    {
      ghost var env0 := env;
      env := env.(functionStack := env.functionStack + [f.name], functionArgs := []);
      var d := Decorate(f.name, f.decorators);
      if d.Err? {
        return Err(d.error);
      }
      if InClass(env) {
        env := env.(scope := ArgNames(f.params.args));
      }
      var checked := f.name != "__new__" && InClass(env) && !d.value.flags.isStatic && |env.functionStack| == 1;
      assert checked == Checked(env0, f.name, d.value.flags);
      var ps := Params(f.params, checked);
      if ps.Err? {
        return Err(ps.error);
      }
      return Ok(Signature(d.value.flags, ps.value));
    }

    /** Writes the header of a function whose signature is visited, and files its table. */
    method Declare(f: Stmt, s: Signature) returns (r: Result<Header>)
      requires Valid() && f.FunctionDef?
      modifies this`env, this`functionsRbArgsDefault, fmt
      ensures Valid() && fmt.indentation == old(fmt.indentation) && env.mode == old(env).mode
      ensures r == HeaderOf(f, s, |old(env).functionStack| != 1)
      ensures r.Ok? ==>
        env == Declaring(old(env), f, r.value)
        && functionsRbArgsDefault == (if old(env).className.None? then old(functionsRbArgsDefault)
                                      else old(functionsRbArgsDefault)[f.name := r.value.slots])
        && fmt.Pending() == old(fmt.Pending()) + Line(fmt.indentUnit, fmt.indentation, r.value.line)
      ensures r.Err? ==> fmt.Pending() == old(fmt.Pending())
    {
      var closure := |env.functionStack| != 1;
      var fname := FuncName(f.name, s.flags.isStatic);
      var line := HeaderLine(s.flags, closure, fname, s.params.texts, f.returnAnno);
      if line.Err? {
        return Err(line.error);
      }
      var h := Header(line.value, fname, s.params.texts, s.params.slots, s.flags, s.params.st);
      if env.className.Some? {
        functionsRbArgsDefault := functionsRbArgsDefault[f.name := s.params.slots];
      }
      Emit(line.value);
      env := Declaring(env, f, h);
      return Ok(h);
    }

    /** The header part of `visit_FunctionDef`: everything up to and including the header line. */
    method DefineFunction(f: Stmt) returns (r: Result<Header>)
      requires Valid() && f.FunctionDef?
      modifies this`env, this`st, this`functionsRbArgsDefault, fmt
      ensures Valid() && Follows(old(Snapshot()), Snapshot(), false)
      ensures r == FunctionHeader(old(env), reg, old(st), f)
      ensures r.Ok? ==>
        env == Declared(old(env), f, r.value) && st == r.value.st
        && functionsRbArgsDefault == (if old(env).className.None? then old(functionsRbArgsDefault)
                                      else old(functionsRbArgsDefault)[f.name := r.value.slots])
        && fmt.indentation == old(fmt.indentation)
        && fmt.Pending() == old(fmt.Pending()) + Line(fmt.indentUnit, fmt.indentation, r.value.line)
    {
      var s := Sign(f);
      if s.Err? {
        return Err(s.error);
      }
      r := Declare(f, s.value);
    }

    /** The body of a block one level in. */
    method Nested(body: seq<Stmt>) returns (r: Result<()>, ghost text: string)
      requires Valid()
      modifies this`env, this`st, this`dummy, this`functionsRbArgsDefault, this`selfFunctionsArgs, this`classFunctionsArgs
      modifies this`imports, fmt
      ensures Valid() && Follows(old(Snapshot()), Snapshot(), r.Ok?)
      ensures r.Ok? ==> fmt.Pending() == old(fmt.Pending()) + text
      decreases body, 6
    {
      text := "";
      ghost var s0 := Snapshot();
      fmt.Indent();
      ghost var s1 := Snapshot();
      r := VisitBody(body);
      FollowsTrans(s0, s1, Snapshot(), false, r.Ok?);
      if r.Err? {
        return;
      }
      text := fmt.Pending()[|s0.pending|..];
      Extends(s0.pending, fmt.Pending());
      fmt.Dedent();
    }

    /** After a top-level function with one name decorator: the function rebound, its name in scope. */
    method Rebind(f: Stmt, inClass: bool)
      requires Valid() && f.FunctionDef?
      modifies this`env, fmt
      ensures Valid() && fmt.indentation == old(fmt.indentation)
      ensures fmt.Pending() == old(fmt.Pending()) + DecoratorTail(fmt.indentUnit, fmt.indentation, f, inClass)
      ensures env == old(env).(scope := if inClass then []
                                        else if |f.decorators| == 1 && f.decorators[0].Name? then old(env).scope + [f.name]
                                        else old(env).scope)
    {
      if inClass {
        env := env.(scope := []);
      } else if |f.decorators| == 1 && f.decorators[0].Name? {
        Emit(f.name + " = " + f.decorators[0].id + "(method(:" + f.name + "))");
        env := env.(scope := env.scope + [f.name]);
      }
      if DecoratorTail(fmt.indentUnit, fmt.indentation, f, inClass) == "" {
        assert fmt.Pending() == old(fmt.Pending()) + "";
      }
    }

    /** The function body after the header: the statements one level in, `end`, the rebinding, and the pop. */
    method FunctionBody(f: Stmt, ghost p0: string, ghost header: string) returns (r: Result<()>, ghost body: string)
      requires Valid() && f.FunctionDef? && |env.functionStack| > 0
      requires fmt.Pending() == p0 + Line(fmt.indentUnit, fmt.indentation, header)
      modifies this`env, this`st, this`dummy, this`functionsRbArgsDefault, this`selfFunctionsArgs, this`classFunctionsArgs
      modifies this`imports, fmt
      ensures Valid() && Follows(old(Snapshot()), Snapshot(), false)
      ensures r.Ok? ==>
        fmt.indentation == old(fmt.indentation)
        && env.functionStack == old(env).functionStack[..|old(env).functionStack| - 1]
        && env.functionArgs == [] && (InClass(env) ==> env.scope == [])
      ensures r.Ok? ==>
        var u, k := fmt.indentUnit, fmt.indentation;
        fmt.Pending() == p0 + FunctionLines(u, k, header, body, DecoratorTail(u, k, f, InClass(env)))
      decreases f, 1
    {
      var stack := env.functionStack;
      r, body := Nested(f.body);
      if r.Err? {
        return;
      }
      Emit("end");
      // The class test comes after the body: a class defined in it leaves `className` unset.
      var inClass := InClass(env);
      Rebind(f, inClass);
      FunctionLinesInOrder(p0, fmt.indentUnit, fmt.indentation, header, body, DecoratorTail(fmt.indentUnit, fmt.indentation, f, inClass));
      env := env.(functionStack := stack[..|stack| - 1], functionArgs := []);
    }

    /** `visit_FunctionDef`: the header, the body one level in, `end`, and the rebinding of a decorated top-level function. */
    method VisitFunctionDef(f: Stmt) returns (r: Result<()>)
      requires Valid() && f.FunctionDef?
      modifies this`env, this`st, this`dummy, this`functionsRbArgsDefault, this`selfFunctionsArgs, this`classFunctionsArgs
      modifies this`imports, fmt
      ensures Valid() && Follows(old(Snapshot()), Snapshot(), r.Ok?)
      ensures FunctionHeader(old(env), reg, old(st), f).Err? ==> r.Err?
      ensures r.Ok? ==> FunctionHeader(old(env), reg, old(st), f).Ok?
      ensures r.Ok? ==>
        var u, k, h := fmt.indentUnit, old(fmt.indentation), FunctionHeader(old(env), reg, old(st), f).value;
        exists body :: fmt.Pending() == old(fmt.Pending()) + FunctionLines(u, k, h.line, body, DecoratorTail(u, k, f, InClass(env)))
      ensures r.Ok? ==> env.functionArgs == [] && (InClass(env) ==> env.scope == [])
      decreases f, 2
    {
      ghost var s0 := Snapshot();
      var h := DefineFunction(f);
      if h.Err? {
        return Err(h.error);
      }
      ghost var s1 := Snapshot();
      ghost var body;
      r, body := FunctionBody(f, s0.pending, h.value.line);
      FollowsTrans(s0, s1, Snapshot(), false, false);
    }

    // -------------------------------------------------------------------
    // visit_ClassDef: the header

    /** Visits the nodes in order, one text each, threading the state as `LowerAll` does. */
    method VisitAll(ns: seq<Node>) returns (r: Result<Outs>)
      modifies this`st
      ensures r == LowerAll(env, reg, old(st), ns)
      ensures r.Ok? ==> st == r.value.st
      ensures st.severity >= old(st.severity)
    {
      var texts: seq<string> := [];
      var i := 0;
      assert ns[0..] == ns;
      PrependOutsNothing(LowerAll(env, reg, st, ns));
      while i < |ns|
        invariant 0 <= i <= |ns| && st.severity >= old(st.severity)
        invariant PrependOuts(texts, LowerAll(env, reg, st, ns[i..])) == LowerAll(env, reg, old(st), ns)
      {
        assert ns[i..][0] == ns[i] && ns[i..][1..] == ns[i + 1..];
        var o := VisitExpr(ns[i], None);
        if o.Err? {
          return Err(o.error);
        }
        PrependOutsStep(texts, o.value.text, LowerAll(env, reg, st, ns[i + 1..]));
        texts := texts + [o.value.text];
        i := i + 1;
      }
      assert texts + [] == texts;
      return Ok(Outs(texts, st));
    }

    /**
     * The loop over the bases: each base's stored ancestor list gets the
     * base appended in place, and its names are added to the class's list
     * when new.
     */
    method LineariseBases(bases: seq<string>) returns (acc: seq<string>)
      modifies this`env
      ensures (env.basesOf, acc) == Linearise(old(env).basesOf, bases, [])
      ensures env == old(env).(basesOf := env.basesOf)
    {
      acc := [];
      var i := 0;
      assert bases[0..] == bases;
      while i < |bases|
        invariant 0 <= i <= |bases| && env == old(env).(basesOf := env.basesOf)
        invariant Linearise(env.basesOf, bases[i..], acc) == Linearise(old(env).basesOf, bases, [])
      {
        assert bases[i..][0] == bases[i] && bases[i..][1..] == bases[i + 1..];
        var b := bases[i];
        ghost var table := env.basesOf;
        var inherited: seq<string>;
        if b in env.basesOf {
          env := env.(basesOf := env.basesOf[b := env.basesOf[b] + [b]]);
          inherited := env.basesOf[b];
        } else {
          inherited := [b];
        }
        assert env.basesOf == Recorded(table, b) && inherited == Inherited(table, b);
        ghost var acc0 := acc;
        var j := 0;
        assert inherited[0..] == inherited;
        while j < |inherited|
          invariant 0 <= j <= |inherited|
          invariant AddNew(acc, inherited[j..]) == AddNew(acc0, inherited)
        {
          assert inherited[j..][0] == inherited[j] && inherited[j..][1..] == inherited[j + 1..];
          if inherited[j] !in acc {
            acc := acc + [inherited[j]];
          }
          j := j + 1;
        }
        i := i + 1;
      }
    }

    /** The bases visited and linearised; the class becomes current and its ancestors are filed. */
    method VisitBases(c: Stmt) returns (r: Result<Lineage>)
      requires c.ClassDef?
      modifies this`env, this`st
      ensures r == ClassLineage(old(env), reg, old(st), c)
      ensures st.severity >= old(st.severity) && env.mode == old(env).mode && env.functionStack == old(env).functionStack
      ensures r.Ok? ==> st == r.value.st && env == ClassEnv(old(env)).(className := Some(c.name), basesOf := r.value.table)
    {
      env := ClassEnv(env);
      var bs := VisitAll(c.bases);
      if bs.Err? {
        return Err(bs.error);
      }
      var bases := RemoveFirst(RemoveFirst(bs.value.texts, "Object"), "object");
      var ancestors := LineariseBases(bases);
      env := env.(className := Some(c.name), basesOf := env.basesOf[c.name := ancestors]);
      return Ok(Lineage(bases, ancestors, env.basesOf, st));
    }

    /** Writes the header of a class whose bases are visited, and records the class. */
    method DeclareClass(c: Stmt, l: Lineage, ghost env0: Env) returns (r: Result<ClassHead>)
      requires Valid() && c.ClassDef? && env == ClassEnv(env0).(className := Some(c.name), basesOf := l.table)
      modifies this`env, fmt
      ensures Valid() && env.mode == old(env).mode && env.functionStack == old(env).functionStack
      ensures r == ClassHeadOf(c, l)
      ensures r.Ok? ==>
        env == ClassDeclared(env0, c, r.value)
        && fmt.indentation == old(fmt.indentation) + 1
        && fmt.Pending() == old(fmt.Pending()) + Line(fmt.indentUnit, old(fmt.indentation), r.value.line)
      ensures r.Err? ==> fmt.Pending() == old(fmt.Pending())
    {
      var supers := UpperAll(l.bases);
      if supers.Err? {
        return Err(supers.error);
      }
      env := env.(classNames := env.classNames + {c.name});
      var rname := UpperFirst(c.name);
      if rname.Err? {
        return Err(rname.error);
      }
      Emit(ClassLine(rname.value, supers.value));
      fmt.Indent();
      env := env.(rclassName := Some(rname.value));
      return Ok(ClassHead(ClassLine(rname.value, supers.value), rname.value, l.ancestors, l.table, l.st));
    }

    /** The header part of `visit_ClassDef`: the resets, the bases, the header line and the indent. */
    method DefineClass(c: Stmt) returns (r: Result<ClassHead>)
      requires Valid() && c.ClassDef?
      modifies this`env, this`st, this`functionsRbArgsDefault, this`selfFunctionsArgs, this`classFunctionsArgs, fmt
      ensures Valid() && Follows(old(Snapshot()), Snapshot(), false)
      ensures r == ClassHeader(old(env), reg, old(st), c)
      ensures r.Ok? ==>
        env == ClassDeclared(old(env), c, r.value) && st == r.value.st
        && functionsRbArgsDefault == map[] && selfFunctionsArgs == map[] && classFunctionsArgs == map[]
        && fmt.indentation == old(fmt.indentation) + 1
        && fmt.Pending() == old(fmt.Pending()) + Line(fmt.indentUnit, old(fmt.indentation), r.value.line)
    {
      ghost var env0 := env;
      functionsRbArgsDefault := map[];
      selfFunctionsArgs := map[];
      classFunctionsArgs := map[];
      var l := VisitBases(c);
      if l.Err? {
        return Err(l.error);
      }
      r := DeclareClass(c, l.value, env0);
    }

    // -------------------------------------------------------------------
    // visit_ClassDef: the body

    /** Sorts the methods of a class body into class functions and instance functions. */
    method Prescan(body: seq<Stmt>)
      modifies this`env
      ensures env == Scanned(old(env), body)
    {
      var i := 0;
      while i < |body|
        invariant 0 <= i <= |body|
        invariant env == Scanned(old(env), body[..i])
      {
        assert body[..i + 1][..i] == body[..i];
        var s := body[i];
        if s.FunctionDef? {
          if IsStaticDef(s) {
            env := env.(classFunctions := env.classFunctions + [s.name]);
          } else {
            env := env.(selfFunctions := env.selfFunctions + [s.name]);
          }
        }
        i := i + 1;
      }
      assert body[..i] == body;
    }

    method WriteWrapper(f: string)
      requires Valid()
      modifies fmt
      ensures Valid() && fmt.indentation == old(fmt.indentation)
      ensures fmt.Pending() == old(fmt.Pending()) + WrapperLines(fmt.indentUnit, fmt.indentation, f)
    {
      ghost var p := fmt.Pending();
      Emit("# instance-method from @staticmethod");
      Emit("def " + f + "(*args,**kwargs)");
      fmt.Indent();
      Emit("self.class." + f + "(*args,**kwargs)");
      fmt.Dedent();
      WrapperLinesAppend(p, fmt.indentUnit, fmt.indentation, f);
      Emit("end");
    }

    /** One instance method per static method, forwarding to the class. */
    method WriteWrappers(fs: seq<string>)
      requires Valid()
      modifies fmt
      ensures Valid() && fmt.indentation == old(fmt.indentation)
      ensures fmt.Pending() == old(fmt.Pending()) + AllWrapperLines(fmt.indentUnit, fmt.indentation, fs)
    {
      var i := 0;
      while i < |fs|
        invariant 0 <= i <= |fs| && Valid() && fmt.indentation == old(fmt.indentation)
        invariant fmt.Pending() == old(fmt.Pending()) + AllWrapperLines(fmt.indentUnit, fmt.indentation, fs[..i])
      {
        assert fs[..i + 1][..i] == fs[..i];
        WriteWrapper(fs[i]);
        assert AllWrapperLines(fmt.indentUnit, fmt.indentation, fs[..i + 1])
            == AllWrapperLines(fmt.indentUnit, fmt.indentation, fs[..i]) + WrapperLines(fmt.indentUnit, fmt.indentation, fs[i]);
        Assoc(old(fmt.Pending()), AllWrapperLines(fmt.indentUnit, fmt.indentation, fs[..i]), WrapperLines(fmt.indentUnit, fmt.indentation, fs[i]));
        i := i + 1;
      }
      assert fs[..i] == fs;
    }

    /** Files each method's defaults table under the class or the instance functions. */
    method FileArgsTables(body: seq<Stmt>) returns (r: Result<()>)
      modifies this`classFunctionsArgs, this`selfFunctionsArgs
      ensures var t := ArgsTables(body, functionsRbArgsDefault, old(classFunctionsArgs), old(selfFunctionsArgs));
        (r.Ok? <==> t.Ok?) && (t.Ok? ==> (classFunctionsArgs, selfFunctionsArgs) == t.value)
        && (t.Err? ==> r == Err(t.error))
    {
      var i := 0;
      assert body[0..] == body;
      while i < |body|
        invariant 0 <= i <= |body|
        invariant ArgsTables(body[i..], functionsRbArgsDefault, classFunctionsArgs, selfFunctionsArgs)
               == ArgsTables(body, functionsRbArgsDefault, old(classFunctionsArgs), old(selfFunctionsArgs))
      {
        assert body[i..][0] == body[i] && body[i..][1..] == body[i + 1..];
        var s := body[i];
        if s.FunctionDef? {
          if s.name !in functionsRbArgsDefault {
            return Err(RuntimeFault("KeyError"));
          }
          if IsStaticDef(s) {
            classFunctionsArgs := classFunctionsArgs[s.name := functionsRbArgsDefault[s.name]];
          } else {
            selfFunctionsArgs := selfFunctionsArgs[s.name := functionsRbArgsDefault[s.name]];
          }
        }
        i := i + 1;
      }
      return Ok(());
    }

    /** The class's method lists recorded, then its wrappers for static methods written. */
    method OpenClassBody(c: Stmt)
      requires Valid() && c.ClassDef? && env.classFunctions == [] && env.selfFunctions == []
      modifies this`env, fmt
      ensures Valid() && fmt.indentation == old(fmt.indentation) && Follows(old(Snapshot()), Snapshot(), true)
      ensures fmt.Pending() == old(fmt.Pending()) + AllWrapperLines(fmt.indentUnit, fmt.indentation, StaticNames(c.body))
      ensures env == ClassOpened(old(env), c)
      ensures env.classFunctions == StaticNames(c.body) && env.selfFunctions == InstanceNames(c.body)
    {
      Prescan(c.body);
      assert env.classFunctions == StaticNames(c.body);
      WriteWrappers(env.classFunctions);
      env := env.(classesFunctions := env.classesFunctions[c.name := env.classFunctions],
                  classesSelfFunctions := env.classesSelfFunctions[c.name := env.selfFunctions]);
    }

    /** After the body: the methods' tables filed under the class, the class left, `end` written and the lists reset. */
    method CloseClassBody(c: Stmt) returns (r: Result<()>)
      requires Valid() && c.ClassDef?
      modifies this`env, this`functionsRbArgsDefault, this`selfFunctionsArgs, this`classFunctionsArgs, fmt
      ensures Valid() && env.mode == old(env).mode && env.functionStack == old(env).functionStack
      ensures Follows(old(Snapshot()), Snapshot(), false)
      ensures r.Err? ==> fmt.Pending() == old(fmt.Pending())
      ensures r.Ok? ==>
        fmt.indentation == old(fmt.indentation) - 1
        && fmt.Pending() == old(fmt.Pending()) + Line(fmt.indentUnit, fmt.indentation, "end")
        && env.className.None? && env.rclassName.None? && env.selfFunctions == [] && env.classFunctions == [] && env.classVariables == []
        && c.name in env.classesClassFunctionsArgs && c.name in env.classesSelfFunctionsArgs
        && functionsRbArgsDefault == map[] && selfFunctionsArgs == map[] && classFunctionsArgs == map[]
    {
      if |functionsRbArgsDefault| != 0 {
        r := FileArgsTables(c.body);
        if r.Err? {
          return;
        }
      }
      env := env.(classesClassFunctionsArgs := env.classesClassFunctionsArgs[c.name := classFunctionsArgs],
                  classesSelfFunctionsArgs := env.classesSelfFunctionsArgs[c.name := selfFunctionsArgs],
                  className := None, rclassName := None);
      fmt.Dedent();
      Emit("end");
      env := env.(selfFunctions := [], classFunctions := [], classVariables := []);
      selfFunctionsArgs := map[];
      functionsRbArgsDefault := map[];
      classFunctionsArgs := map[];
      return Ok(());
    }

    /** The class body after the header: the wrappers, the body's statements and `end`. */
    method ClassBody(c: Stmt, ghost p0: string, ghost header: string) returns (r: Result<()>, ghost body: string)
      requires Valid() && c.ClassDef? && env.classFunctions == [] && env.selfFunctions == []
      requires fmt.Pending() == p0 + Line(fmt.indentUnit, fmt.indentation - 1, header)
      modifies this`env, this`st, this`dummy, this`functionsRbArgsDefault, this`selfFunctionsArgs, this`classFunctionsArgs
      modifies this`imports, fmt
      ensures Valid() && Follows(old(Snapshot()), Snapshot(), false)
      ensures r.Ok? ==> fmt.indentation == old(fmt.indentation) - 1 && env.functionStack == old(env).functionStack
      ensures r.Ok? ==>
        var u, k := fmt.indentUnit, fmt.indentation;
        fmt.Pending() == p0 + ClassLines(u, k, header, AllWrapperLines(u, k + 1, StaticNames(c.body)), body)
      ensures r.Ok? ==>
        env.className.None? && env.rclassName.None? && env.selfFunctions == [] && env.classFunctions == []
        && c.name in env.classesClassFunctionsArgs && c.name in env.classesSelfFunctionsArgs
      decreases c, 1
    {
      body := "";
      ghost var s0 := Snapshot();
      ghost var u, k := fmt.indentUnit, fmt.indentation - 1;
      OpenClassBody(c);
      ghost var s1 := Snapshot();
      r := VisitBody(c.body);
      FollowsTrans(s0, s1, Snapshot(), true, r.Ok?);
      if r.Err? {
        return;
      }
      body := fmt.Pending()[|s1.pending|..];
      Extends(s1.pending, fmt.Pending());
      ghost var s2 := Snapshot();
      r := CloseClassBody(c);
      FollowsTrans(s0, s2, Snapshot(), true, false);
      if r.Err? {
        return;
      }
      ClassLinesInOrder(p0, u, k, header, AllWrapperLines(u, k + 1, StaticNames(c.body)), body);
    }

    /** `visit_ClassDef`: the header, the wrappers of static methods, the body one level in, and `end`. */
    method VisitClassDef(c: Stmt) returns (r: Result<()>)
      requires Valid() && c.ClassDef?
      modifies this`env, this`st, this`dummy, this`functionsRbArgsDefault, this`selfFunctionsArgs, this`classFunctionsArgs
      modifies this`imports, fmt
      ensures Valid() && Follows(old(Snapshot()), Snapshot(), r.Ok?)
      ensures ClassHeader(old(env), reg, old(st), c).Err? ==> r.Err?
      ensures r.Ok? ==> ClassHeader(old(env), reg, old(st), c).Ok?
      ensures r.Ok? ==>
        var u, k, h := fmt.indentUnit, old(fmt.indentation), ClassHeader(old(env), reg, old(st), c).value;
        var wrappers := AllWrapperLines(u, k + 1, StaticNames(c.body));
        exists body :: fmt.Pending() == old(fmt.Pending()) + ClassLines(u, k, h.line, wrappers, body)
      ensures r.Ok? ==>
        env.className.None? && env.rclassName.None? && env.selfFunctions == [] && env.classFunctions == []
        && c.name in env.classesClassFunctionsArgs && c.name in env.classesSelfFunctionsArgs
      decreases c, 2
    {
      ghost var s0 := Snapshot();
      var h := DefineClass(c);
      if h.Err? {
        return Err(h.error);
      }
      ghost var s1 := Snapshot();
      ghost var body;
      r, body := ClassBody(c, s0.pending, h.value.line);
      FollowsTrans(s0, s1, Snapshot(), false, false);
    }

    // -------------------------------------------------------------------
    // Loops

    /** The target in tuple mode `()`, then the iterable in list mode `[]`. */
    method ForHeader(target: Node, iter: Node) returns (r: Result<(string, string)>)
      modifies this`st
      ensures var h := ForHeads(env, reg, old(st), target, iter);
        (r.Ok? <==> h.Ok?) && (r.Ok? ==> r.value == (h.value.0, h.value.1) && st == h.value.2)
      ensures st.severity >= old(st.severity)
    {
      st := st.(tupleType := "()");
      var t := VisitExpr(target, None);
      if t.Err? {
        return Err(t.error);
      }
      st := st.(tupleType := "[]");
      var it := VisitExpr(iter, None);
      if it.Err? {
        return Err(it.error);
      }
      return Ok((t.value.text, it.value.text));
    }

    /** The flag's initialisation before a loop with an else branch. */
    method WriteFlagInit(flag: Option<string>)
      requires Valid()
      modifies fmt
      ensures Valid() && fmt.indentation == old(fmt.indentation)
      ensures fmt.Pending() == old(fmt.Pending()) + FlagInit(fmt.indentUnit, fmt.indentation, flag)
    {
      if flag.Some? {
        Emit(flag.value + " = false");
      } else {
        assert fmt.Pending() == old(fmt.Pending()) + "";
      }
    }

    /** The guard that sets the flag at the end of a `for` body. */
    method WriteForFlag(flag: Option<string>, t: string, it: string)
      requires Valid()
      modifies fmt
      ensures Valid() && fmt.indentation == old(fmt.indentation)
      ensures fmt.Pending() == old(fmt.Pending()) + ForFlag(fmt.indentUnit, fmt.indentation, flag, t, it)
    {
      if flag.Some? {
        ghost var p, u, k := fmt.Pending(), fmt.indentUnit, fmt.indentation;
        fmt.Indent();
        Emit("if " + t + " == " + it + "[-1]");
        fmt.Indent();
        Emit(flag.value + " = true");
        fmt.Dedent();
        Emit("end");
        fmt.Dedent();
        ForFlagInOrder(p, u, k, flag.value, t, it);
      } else {
        assert fmt.Pending() == old(fmt.Pending()) + "";
      }
    }

    /** The `if flag` block holding the else branch, when the loop has one. */
    method ElseBranch(flag: Option<string>, orelse: seq<Stmt>) returns (r: Result<()>, ghost text: string)
      requires Valid()
      modifies this`env, this`st, this`dummy, this`functionsRbArgsDefault, this`selfFunctionsArgs, this`classFunctionsArgs
      modifies this`imports, fmt
      ensures Valid() && Follows(old(Snapshot()), Snapshot(), r.Ok?)
      ensures flag.None? ==> r.Ok?
      ensures r.Ok? ==> fmt.Pending() == old(fmt.Pending()) + LoopElse(fmt.indentUnit, fmt.indentation, flag, text)
      decreases orelse, 7
    {
      text := "";
      if flag.None? {
        assert fmt.Pending() == old(fmt.Pending()) + "";
        return Ok(()), text;
      }
      ghost var s0 := Snapshot();
      Emit("if " + flag.value);
      ghost var s1 := Snapshot();
      r, text := Nested(orelse);
      FollowsTrans(s0, s1, Snapshot(), true, r.Ok?);
      if r.Err? {
        return;
      }
      Emit("end");
    }

    /** The `for` loop once its heads are visited: the flag, `py_each`, the body, the guard, `end` and the else block. */
    method ForLoop(s: Stmt, flag: Option<string>, t: string, it: string) returns (r: Result<()>, ghost body: string, ghost orelse: string)
      requires Valid() && s.For?
      modifies this`env, this`st, this`dummy, this`functionsRbArgsDefault, this`selfFunctionsArgs, this`classFunctionsArgs
      modifies this`imports, fmt
      ensures Valid() && Follows(old(Snapshot()), Snapshot(), r.Ok?)
      ensures r.Ok? ==> fmt.Pending() == old(fmt.Pending()) + ForLines(fmt.indentUnit, fmt.indentation, flag, t, it, body, orelse)
      decreases s, 1
    {
      orelse := "";
      ghost var s0 := Snapshot();
      WriteFlagInit(flag);
      Emit(it + ".py_each do |" + t + "|");
      ghost var s1 := Snapshot();
      r, body := Nested(s.body);
      FollowsTrans(s0, s1, Snapshot(), true, r.Ok?);
      if r.Err? {
        return;
      }
      WriteForFlag(flag, t, it);
      Emit("end");
      ghost var s2 := Snapshot();
      r, orelse := ElseBranch(flag, s.orelse);
      FollowsTrans(s0, s2, Snapshot(), true, r.Ok?);
      if r.Err? {
        return;
      }
      ForLinesInOrder(s0.pending, fmt.indentUnit, s0.level, flag, t, it, body, orelse);
    }

    /** `visit_For`: the target in tuple mode `()`, the iterable, the loop, and the `else` branch behind a fresh flag. */
    method VisitFor(s: Stmt) returns (r: Result<()>)
      requires Valid() && s.For?
      modifies this`env, this`st, this`dummy, this`functionsRbArgsDefault, this`selfFunctionsArgs, this`classFunctionsArgs
      modifies this`imports, fmt
      ensures Valid() && Follows(old(Snapshot()), Snapshot(), r.Ok?)
      ensures !ForTarget(s.target) ==>
        r == Err(ConvertError("Argument decomposition in 'for' loop is not supported")) && st.severity == IncludeError
      ensures r.Ok? ==> ForTarget(s.target) && ForHeads(old(env), reg, old(st), s.target, s.iter).Ok?
      ensures r.Ok? ==>
        var u, k, hd := fmt.indentUnit, old(fmt.indentation), ForHeads(old(env), reg, old(st), s.target, s.iter).value;
        var flag := if |s.orelse| > 0 then Some(DummyName(old(dummy))) else None;
        exists body, orelse :: fmt.Pending() == old(fmt.Pending()) + ForLines(u, k, flag, hd.0, hd.1, body, orelse)
      decreases s, 2
    {
      if !ForTarget(s.target) {
        SetResult(IncludeError);
        return Err(ConvertError("Argument decomposition in 'for' loop is not supported"));
      }
      ghost var s0 := Snapshot();
      var heads := ForHeader(s.target, s.iter);
      if heads.Err? {
        return Err(heads.error);
      }
      var flag: Option<string> := None;
      if |s.orelse| > 0 {
        var d := NewDummy();
        flag := Some(d);
      }
      ghost var s1 := Snapshot();
      ghost var body, orelse;
      r, body, orelse := ForLoop(s, flag, heads.value.0, heads.value.1);
      FollowsTrans(s0, s1, Snapshot(), true, r.Ok?);
    }

    /** The head of a `while` loop: the test visited, and written plainly or after the flag inside `while true`. */
    method WhileHeader(test: Node, flag: Option<string>) returns (r: Result<string>)
      requires Valid()
      modifies this`st, fmt
      ensures Valid() && fmt.indentation == old(fmt.indentation) && old(fmt.Pending()) <= fmt.Pending()
      ensures st.severity >= old(st.severity)
      ensures r.Ok? <==> Lowering.Lower(env, reg, old(st), test, None).Ok?
      ensures r.Ok? ==>
        r.value == Lowering.Lower(env, reg, old(st), test, None).value.text
        && fmt.Pending() == old(fmt.Pending()) + WhileHead(fmt.indentUnit, fmt.indentation, flag, r.value)
    {
      var t: Result<Out>;
      if flag.None? {
        t := VisitExpr(test, None);
        if t.Err? {
          return Err(t.error);
        }
        Emit("while " + t.value.text);
      } else {
        ghost var p, u, k := fmt.Pending(), fmt.indentUnit, fmt.indentation;
        Emit(flag.value + " = false");
        Emit("while true");
        t := VisitExpr(test, None);
        if t.Err? {
          return Err(t.error);
        }
        Emit("    unless " + t.value.text);
        Emit("        " + flag.value + " = true");
        Emit("        break");
        Emit("    end");
        WhileHeadInOrder(p, u, k, flag.value, t.value.text);
      }
      return Ok(t.value.text);
    }

    /** The `while` loop once its head is written: the body, `end` and the else block. */
    method WhileLoop(s: Stmt, flag: Option<string>, ghost p0: string, ghost test: string)
      returns (r: Result<()>, ghost body: string, ghost orelse: string)
      requires Valid() && s.While?
      requires fmt.Pending() == p0 + WhileHead(fmt.indentUnit, fmt.indentation, flag, test)
      modifies this`env, this`st, this`dummy, this`functionsRbArgsDefault, this`selfFunctionsArgs, this`classFunctionsArgs
      modifies this`imports, fmt
      ensures Valid() && Follows(old(Snapshot()), Snapshot(), r.Ok?)
      ensures r.Ok? ==> fmt.Pending() == p0 + WhileLines(fmt.indentUnit, fmt.indentation, flag, test, body, orelse)
      decreases s, 1
    {
      orelse := "";
      ghost var s0 := Snapshot();
      r, body := Nested(s.body);
      if r.Err? {
        return;
      }
      Emit("end");
      ghost var s1 := Snapshot();
      r, orelse := ElseBranch(flag, s.orelse);
      FollowsTrans(s0, s1, Snapshot(), true, r.Ok?);
      if r.Err? {
        return;
      }
      WhileLinesInOrder(p0, fmt.indentUnit, s0.level, flag, test, body, orelse);
    }

    /** `visit_While`: a plain loop, or with an `else` branch an endless loop that sets a fresh flag and breaks. */
    method VisitWhile(s: Stmt) returns (r: Result<()>)
      requires Valid() && s.While?
      modifies this`env, this`st, this`dummy, this`functionsRbArgsDefault, this`selfFunctionsArgs, this`classFunctionsArgs
      modifies this`imports, fmt
      ensures Valid() && Follows(old(Snapshot()), Snapshot(), r.Ok?)
      ensures r.Ok? ==> Lowering.Lower(old(env), reg, old(st), s.test, None).Ok?
      ensures r.Ok? ==>
        var u, k, test := fmt.indentUnit, old(fmt.indentation), Lowering.Lower(old(env), reg, old(st), s.test, None).value.text;
        var flag := if |s.orelse| > 0 then Some(DummyName(old(dummy))) else None;
        exists body, orelse :: fmt.Pending() == old(fmt.Pending()) + WhileLines(u, k, flag, test, body, orelse)
      decreases s, 2
    {
      ghost var s0 := Snapshot();
      var flag: Option<string> := None;
      if |s.orelse| > 0 {
        var d := NewDummy();
        flag := Some(d);
      }
      var test := WhileHeader(s.test, flag);
      if test.Err? {
        return Err(test.error);
      }
      ghost var s1 := Snapshot();
      ghost var body, orelse;
      r, body, orelse := WhileLoop(s, flag, s0.pending, test.value);
      FollowsTrans(s0, s1, Snapshot(), true, r.Ok?);
    }

    // -------------------------------------------------------------------
    // Simple statements

    /** `visit_Import` of the first alias: the alias recorded, and a `require` written once per module. */
    method VisitImport(mod: string, asname: Option<string>)
      requires Valid()
      modifies this`env, this`imports, fmt
      ensures Valid() && fmt.indentation == old(fmt.indentation)
      ensures env == old(env).(moduleAliases := AliasesAfter(reg, old(env).moduleAliases, mod, asname))
      ensures fmt.Pending() == old(fmt.Pending()) + RequireLine(reg, old(imports), fmt.indentUnit, fmt.indentation, mod)
      ensures imports == if RequireOf(reg, mod).Some? && mod !in old(imports) then old(imports) + [mod] else old(imports)
    {
      var path := mod;
      if Truthy(reg.RequireLookupOrNone(mod)) {
        path := ReplaceChar(mod, '.', '/');
        if asname.Some? {
          var alias := if asname.value != "" then asname.value else path;
          env := env.(moduleAliases := env.moduleAliases[alias := path]);
        }
      }
      var req := reg.RequireLookup(path);
      if Truthy(req) && mod !in imports {
        Emit("require \"" + req.value + "\"");
        imports := imports + [mod];
      } else {
        assert fmt.Pending() == old(fmt.Pending()) + "";
      }
    }

    /** The comment lines of a docstring, one per line of its text. */
    method WriteComments(parts: seq<string>)
      requires Valid()
      modifies fmt
      ensures Valid() && fmt.indentation == old(fmt.indentation)
      ensures fmt.Pending() == old(fmt.Pending()) + CommentLines(fmt.indentUnit, fmt.indentation, parts)
    {
      var indent := fmt.IndentString();
      var i := 0;
      while i < |parts|
        invariant 0 <= i <= |parts| && Valid() && fmt.indentation == old(fmt.indentation)
        invariant fmt.Pending() == old(fmt.Pending()) + CommentLines(fmt.indentUnit, fmt.indentation, parts[..i])
      {
        assert parts[..i + 1][..i] == parts[..i];
        ghost var line := Line(fmt.indentUnit, fmt.indentation, "# " + StripPrefix(parts[i], indent));
        Emit("# " + StripPrefix(parts[i], indent));
        assert CommentLines(fmt.indentUnit, fmt.indentation, parts[..i + 1])
            == CommentLines(fmt.indentUnit, fmt.indentation, parts[..i]) + line;
        Assoc(old(fmt.Pending()), CommentLines(fmt.indentUnit, fmt.indentation, parts[..i]), line);
        i := i + 1;
      }
      assert parts[..i] == parts;
    }

    /** `visit_Expr`: a docstring becomes comment lines, any other expression its own line. */
    method VisitExprStmt(e: Node) returns (r: Result<()>)
      requires Valid()
      modifies this`st, fmt
      ensures Valid() && fmt.indentation == old(fmt.indentation) && old(fmt.Pending()) <= fmt.Pending()
      ensures r.Ok? <==> Lowering.Lower(env, reg, old(st), e, None).Ok?
      ensures r.Ok? ==>
        var v := Lowering.Lower(env, reg, old(st), e, None).value;
        st == v.st
        && fmt.Pending() == old(fmt.Pending())
           + (if IsStr(e) then CommentLines(fmt.indentUnit, fmt.indentation, Split(Inner(v.text), '\n'))
              else Line(fmt.indentUnit, fmt.indentation, v.text))
      ensures r.Err? ==> fmt.Pending() == old(fmt.Pending())
      ensures st.severity >= old(st.severity)
    {
      var v := VisitExpr(e, None);
      if v.Err? {
        return Err(v.error);
      }
      if IsStr(e) {
        WriteComments(Split(Inner(v.value.text), '\n'));
      } else {
        Emit(v.value.text);
      }
      return Ok(());
    }

    /** `visit_Return`: `return`, or `return` and the value's text. */
    method VisitReturn(value: Option<Node>) returns (r: Result<()>)
      requires Valid()
      modifies this`st, fmt
      ensures Valid() && fmt.indentation == old(fmt.indentation) && old(fmt.Pending()) <= fmt.Pending()
      ensures value.None? ==> r.Ok? && st == old(st) && fmt.Pending() == old(fmt.Pending()) + Line(fmt.indentUnit, fmt.indentation, "return")
      ensures value.Some? ==> (r.Ok? <==> Lowering.Lower(env, reg, old(st), value.value, None).Ok?)
      ensures value.Some? && r.Ok? ==>
        var v := Lowering.Lower(env, reg, old(st), value.value, None).value;
        st == v.st && fmt.Pending() == old(fmt.Pending()) + Line(fmt.indentUnit, fmt.indentation, "return " + v.text)
      ensures r.Err? ==> fmt.Pending() == old(fmt.Pending())
      ensures st.severity >= old(st.severity)
    {
      if value.None? {
        Emit("return");
        return Ok(());
      }
      var v := VisitExpr(value.value, None);
      if v.Err? {
        return Err(v.error);
      }
      Emit("return " + v.value.text);
      return Ok(());
    }

    // -------------------------------------------------------------------
    // Dispatch

    /** The statements with a body of their own: definitions and loops. */
    method VisitCompound(s: Stmt) returns (r: Result<()>)
      requires Valid() && (s.FunctionDef? || s.ClassDef? || s.For? || s.While?)
      modifies this`env, this`st, this`dummy, this`functionsRbArgsDefault, this`selfFunctionsArgs, this`classFunctionsArgs
      modifies this`imports, fmt
      ensures Valid() && Follows(old(Snapshot()), Snapshot(), r.Ok?)
      decreases s, 3
    {
      match s
      case FunctionDef(_, _, _, _, _) => r := VisitFunctionDef(s);
      case ClassDef(_, _, _) => r := VisitClassDef(s);
      case For(_, _, _, _) => r := VisitFor(s);
      case While(_, _, _) => r := VisitWhile(s);
    }

    /** The statements without a body: expressions, `return`, keywords, imports, and kinds without a visitor. */
    method VisitSimple(s: Stmt) returns (r: Result<()>)
      requires Valid() && !(s.FunctionDef? || s.ClassDef? || s.For? || s.While?)
      modifies this`env, this`st, this`dummy, this`imports, fmt
      ensures Valid() && Follows(old(Snapshot()), Snapshot(), r.Ok?)
      ensures s.OtherStmt? && old(env).mode == Stop ==>
        r == Err(ConvertError("Syntax not supported (" + s.kind + ")")) && st.severity == IncludeError
      ensures s.OtherStmt? && old(env).mode == Warning ==> r.Ok? && st.severity >= IncludeWarning
      ensures (s.Pass? || s.Break? || s.Continue?) ==>
        r.Ok? && st == old(st) && fmt.Pending() == old(fmt.Pending()) + Line(fmt.indentUnit, fmt.indentation, KeywordText(s))
      ensures Plain(s) ==> env == old(env) && (r.Ok? <==> PlainLines(old(env), reg, old(st), fmt.indentUnit, old(fmt.indentation), s).Ok?)
      ensures Plain(s) && r.Ok? ==>
        var p := PlainLines(old(env), reg, old(st), fmt.indentUnit, old(fmt.indentation), s).value;
        st == p.1 && fmt.Pending() == old(fmt.Pending()) + p.0
      ensures s.Import? ==>
        r.Ok? && env == old(env).(moduleAliases := AliasesAfter(reg, old(env).moduleAliases, s.modName, s.asname))
        && fmt.Pending() == old(fmt.Pending()) + RequireLine(reg, old(imports), fmt.indentUnit, fmt.indentation, s.modName)
    {
      match s
      case ExprStmt(e) => r := VisitExprStmt(e);
      case Return(v) => r := VisitReturn(v);
      case Pass => Emit(KeywordText(s)); r := Ok(());
      case Break => Emit(KeywordText(s)); r := Ok(());
      case Continue => Emit(KeywordText(s)); r := Ok(());
      case Import(mod, asname) =>
        VisitImport(mod, asname);
        assert old(fmt.Pending()) <= fmt.Pending();
        r := Ok(());
      case OtherStmt(kind) =>
        if env.mode == Stop {
          SetResult(IncludeError);
          r := Err(ConvertError("Syntax not supported (" + kind + ")"));
        } else {
          MaybeWarn();
          r := Ok(());
        }
    }

    /**
     * `visit` of a statement: the module pass skips everything but
     * definitions and imports; a kind without a visitor stops the
     * conversion in stop mode and is skipped with a warning otherwise.
     */
    method VisitStmt(s: Stmt) returns (r: Result<()>)
      requires Valid()
      modifies this`env, this`st, this`dummy, this`functionsRbArgsDefault, this`selfFunctionsArgs, this`classFunctionsArgs
      modifies this`imports, fmt
      ensures Valid() && Follows(old(Snapshot()), Snapshot(), r.Ok?)
      ensures old(env).mode == NoError && !Declares(s) ==>
        r.Ok? && env == old(env) && st == old(st) && fmt.Pending() == old(fmt.Pending())
      ensures s.OtherStmt? && old(env).mode == Stop ==>
        r == Err(ConvertError("Syntax not supported (" + s.kind + ")")) && st.severity == IncludeError
      ensures s.OtherStmt? && old(env).mode == Warning ==> r.Ok? && st.severity >= IncludeWarning
      ensures old(env).mode != NoError && Plain(s) ==>
        env == old(env)
        && VisitedAs(PlainLines(old(env), reg, old(st), fmt.indentUnit, old(fmt.indentation), s), r.Ok?, old(fmt.Pending()), fmt.Pending(), st)
      decreases s, 4
    {
      if env.mode == NoError && !Declares(s) {
        return Ok(());
      }
      if s.FunctionDef? || s.ClassDef? || s.For? || s.While? {
        r := VisitCompound(s);
      } else {
        r := VisitSimple(s);
      }
    }

    /**
     * The statements of a body in order, stopping at the first error. In
     * stop mode a statement kind without a visitor is an error; in warning
     * mode it leaves at least a warning.
     */
    method VisitBody(body: seq<Stmt>) returns (r: Result<()>)
      requires Valid()
      modifies this`env, this`st, this`dummy, this`functionsRbArgsDefault, this`selfFunctionsArgs, this`classFunctionsArgs
      modifies this`imports, fmt
      ensures Valid() && Follows(old(Snapshot()), Snapshot(), r.Ok?)
      ensures old(env).mode == Stop && (exists i :: 0 <= i < |body| && body[i].OtherStmt?) ==> r.Err?
      ensures old(env).mode == Warning && r.Ok? && (exists i :: 0 <= i < |body| && body[i].OtherStmt?) ==>
        st.severity >= IncludeWarning
      ensures old(env).mode == NoError && (forall i :: 0 <= i < |body| ==> !Declares(body[i])) ==>
        r.Ok? && env == old(env) && st == old(st) && fmt.Pending() == old(fmt.Pending())
      ensures old(env).mode != NoError && AllPlain(body) ==>
        env == old(env)
        && VisitedAs(BodyLines(old(env), reg, old(st), fmt.indentUnit, old(fmt.indentation), body), r.Ok?, old(fmt.Pending()), fmt.Pending(), st)
      decreases body, 5
    {
      ghost var plain := old(env).mode != NoError && AllPlain(body);
      ghost var e0, u0, k0, p0 := env, fmt.indentUnit, fmt.indentation, fmt.Pending();
      ghost var whole := if AllPlain(body) then BodyLines(e0, reg, st, u0, k0, body) else Ok(("", st));
      ghost var done := "";
      if AllPlain(body) {
        ProgressStart(e0, reg, st, u0, k0, body);
      }
      var i := 0;
      while i < |body|
        invariant 0 <= i <= |body| && Valid() && Follows(old(Snapshot()), Snapshot(), true)
        invariant env.mode == Stop ==> forall j :: 0 <= j < i ==> !body[j].OtherStmt?
        invariant env.mode == Warning && (exists j :: 0 <= j < i && body[j].OtherStmt?) ==> st.severity >= IncludeWarning
        invariant old(env).mode == NoError && (forall j :: 0 <= j < |body| ==> !Declares(body[j])) ==>
          env == old(env) && st == old(st) && fmt.Pending() == old(fmt.Pending())
        invariant plain ==> env == e0 && fmt.Pending() == p0 + done && Progress(e0, reg, st, u0, k0, body, i, done, whole)
      {
        ghost var before := Snapshot();
        ghost var st0 := st;
        r := VisitStmt(body[i]);
        FollowsTrans(old(Snapshot()), before, Snapshot(), true, r.Ok?);
        ghost var t := "";
        if plain {
          t := BodyLinesAdvance(e0, reg, st0, u0, k0, body, i, p0, done, whole, r.Ok?, fmt.Pending(), st);
        }
        if r.Err? {
          return;
        }
        done := done + t;
        i := i + 1;
      }
      if plain {
        ProgressDone(e0, reg, st, u0, k0, body, done, whole);
      }
      return Ok(());
    }
  }

  /**
   * `convert_py2cr`: the sibling modules visited in the module pass, the
   * buffer cleared after each; then the target in warning mode (no stop)
   * or stop mode; then the text read, the buffer cleared, and read again
   * as the header.
   */
  method Convert(registry: TranslatorRegistry, modules: seq<seq<Stmt>>, target: seq<Stmt>, noStop: bool)
    returns (r: Result<()>, status: Severity, header: string, data: string)
    ensures r.Ok? ==> header == ""
    ensures !noStop && (exists i :: 0 <= i < |target| && target[i].OtherStmt?) ==> r.Err?
    ensures noStop && r.Ok? && (exists i :: 0 <= i < |target| && target[i].OtherStmt?) ==> status >= IncludeWarning
    ensures modules == [] && AllPlain(target) ==>
      var b := BodyLines(InitialEnv().(mode := if noStop then Warning else Stop), registry, InitialSt(), "  ", 0, target);
      (r.Ok? <==> b.Ok?) && (r.Ok? ==> data == b.value.0 && status == b.value.1.severity)
  {
    var v := new RB(registry);
    v.SetMode(NoError);
    var i := 0;
    while i < |modules|
      invariant 0 <= i <= |modules| && fresh(v) && fresh(v.fmt) && v.Valid() && v.env.mode == NoError
      invariant v.reg == registry && v.fmt.indentUnit == "  "
      invariant i == 0 ==> v.env == InitialEnv().(mode := NoError) && v.st == InitialSt() && v.fmt.indentation == 0 && v.fmt.Pending() == ""
    {
      r := v.VisitBody(modules[i]);
      if r.Err? {
        return r, v.st.severity, "", "";
      }
      v.fmt.Clear();
      i := i + 1;
    }
    v.SetMode(if noStop then Warning else Stop);
    r := v.VisitBody(target);
    if r.Err? {
      return r, v.st.severity, "", "";
    }
    data := v.fmt.Read(None);
    v.fmt.Clear();
    header := v.fmt.Read(None);
    status := v.GetResult();
  }
}
