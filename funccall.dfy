/** The call descriptor the visitor hands to translation rules (`FuncCall`). */
module FuncCall {
  import opened Strings
  import opened Ast

  /**
   * What a translation rule sees of a call: the callee text after the
   * visitor's renaming (`funcstr`), the rendered arguments as the visitor
   * finally left them (`crystal_args` is the same list the visitor edits),
   * and the call's argument nodes.
   */
  datatype CallInfo = CallInfo(funcstr: string, args: seq<string>, nodeArgs: seq<Node>)

  /**
   * What a rule produces: finished text, or a request the visitor carries
   * out (`empty_list`, `empty_hash`, the `dict([...])` element loop), or
   * nothing at all (a rule whose body returns `None`).
   */
  datatype Outcome = Text(s: string) | EmptyList | EmptyHash | DictOfList | NoText

  /**
   * `set_func`: split the callee text at its LAST dot into module and
   * name; a callee without a dot has the empty module.
   */
  function SetFunc(funcstr: string): (r: (string, string))
    ensures !Contains(r.1, '.')
  {
    var parts := Split(funcstr, '.');
    if |parts| == 1 then ("", parts[0])
    else (Join(parts[..|parts| - 1], "."), parts[|parts| - 1])
  }

  lemma SetFuncSplitsAtLastDot(funcstr: string)
    ensures !Contains(SetFunc(funcstr).1, '.')
    ensures !Contains(funcstr, '.') ==> SetFunc(funcstr) == ("", funcstr)
    ensures Contains(funcstr, '.') ==> SetFunc(funcstr).0 + "." + SetFunc(funcstr).1 == funcstr
  {
    var parts := Split(funcstr, '.');
    SplitJoin(funcstr, '.');
    if !Contains(funcstr, '.') {
      SplitSingle(funcstr, '.');
    } else {
      SplitMany(funcstr, '.');
      assert parts == parts[..|parts| - 1] + [parts[|parts| - 1]];
      JoinAppend(parts[..|parts| - 1], parts[|parts| - 1], ".");
    }
  }

  /** A one-dot callee such as `sys.exit` splits into `sys` and `exit`. */
  lemma {:induction false} SetFuncOneDot(a: string, b: string)
    requires !Contains(a, '.') && !Contains(b, '.')
    ensures SetFunc(a + "." + b) == (a, b)
  {
    SplitSingle(b, '.');
    SplitPrefix(a, b, '.');
    assert a + ['.'] + b == a + "." + b;
    var parts := Split(a + "." + b, '.');
    assert parts == [a, b];
    assert parts[..1] == [a];
  }

  /** `a.b.c` with dot-free parts splits into its three parts. */
  lemma {:induction false} SplitThree(a: string, b: string, c: string)
    requires !Contains(a, '.') && !Contains(b, '.') && !Contains(c, '.')
    ensures Split(a + "." + b + "." + c, '.') == [a, b, c]
  {
    var bc := b + "." + c;
    assert "." == ['.'];
    SplitSingle(c, '.');
    SplitPrefix(b, c, '.');
    SplitPrefix(a, bc, '.');
    assert a + "." + b + "." + c == a + "." + bc;
  }

  /** A two-dot callee such as `os.path.join` splits into `os.path` and `join`. */
  lemma {:induction false} SetFuncTwoDots(a: string, b: string, c: string)
    requires !Contains(a, '.') && !Contains(b, '.') && !Contains(c, '.')
    ensures SetFunc(a + "." + b + "." + c) == (a + "." + b, c)
  {
    var parts := Split(a + "." + b + "." + c, '.');
    SplitThree(a, b, c);
    assert parts[..2] == [a, b];
    assert Join([a, b], ".") == a + "." + b by {
      assert [a, b][1..] == [b];
    }
  }

  /** `wrap_class_method`: `cls.method(a, b, ...)` over the call's rendered arguments. */
  function WrapClassMethod(cls: string, meth: string, call: CallInfo): string
  {
    cls + "." + meth + "(" + Join(call.args, ", ") + ")"
  }
}
