/**
 * Tables and pure text rules of the translator class `RB`: the name and
 * method rename tables, operator parenthesisation, comparison pairs,
 * tuple and slice rendering, fresh names and call-site keyword rewriting.
 */
module RbHelpers {
  import opened Wrappers
  import opened Strings
  import opened Ast

  // ---------------------------------------------------------------------
  // Result status and operation mode

  /** `ResultStatus`: OK = 0 < INCLUDE_WARNING = 1 < INCLUDE_ERROR = 2. */
  type Severity = x: nat | x <= 2

  const StatusOk: Severity := 0
  const IncludeWarning: Severity := 1
  const IncludeError: Severity := 2

  /** `OperationMode`: stop at the first error, warn and go on, or ignore errors (module pass). */
  datatype Mode = Stop | Warning | NoError

  /** The status after `set_result(s)`: the larger of the two. */
  function Raise(current: Severity, s: Severity): (r: Severity)
    ensures r >= current && r >= s
    ensures r == current || r == s
  {
    if current < s then s else current
  }

  // ---------------------------------------------------------------------
  // Rename tables of `RB`

  /** `name_constant_map` for `True`, `False` and `None` constants. */
  function NameConstant(c: Const): string
    requires c.CBool? || c.CNone?
  {
    match c
    case CBool(b) => if b then "true" else "false"
    case CNone => "nil"
  }

  const FuncNameMap: map<string, string> := map[
    "zip" := "py_zip",
    "set" := "Set.new",
    "print" := "py_print",
    "open" := "File.open",
    "bool" := "py_is_bool"
  ]

  const NameMap: map<string, string> := map[
    "True" := "true",
    "False" := "false",
    "None" := "nil",
    "str" := "String",
    "int" := "Int32",
    "float" := "Float64",
    "list" := "Array",
    "tuple" := "Tuple",
    "dict" := "Hash",
    "bytes" := "Bytes",
    "__file__" := "__FILE__"
  ]

  const ExceptionMap: map<string, string> := map[
    "AssertionError" := "AssertionError",
    "Exception" := "Exception",
    "IndexError" := "IndexError",
    "KeyError" := "KeyError",
    "KeyboardInterrupt" := "Interrupt",
    "LookupError" := "???",
    "MemoryError" := "NoMemoryError",
    "ModuleNotFoundError" := "LoadError",
    "NameError" := "NameError",
    "NotImplementedError" := "NotImplementedError",
    "OSError" := "IOError",
    "OverflowError" := "OverflowError",
    "RecursionError" := "SystemStackError",
    "ReferenceError" := "ReferenceError",
    "RuntimeError" := "RuntimeError",
    "ZeroDivisionError" := "DivisionByZeroError"
  ]

  /** Functions rendered as a method of their first argument, the second argument following. */
  const MethodsMapMiddle: map<string, string> := map[
    "isinstance" := "is_a?",
    "all" := "py_all?",
    "any" := "py_any?",
    "remove" := "py_remove",
    "hasattr" := "instance_variable_defined?",
    "getattr" := "py_getattr"
  ]

  /** Functions rendered as a method of their first argument. */
  const ReverseMethods: map<string, string> := map[
    "type" := "class",
    "abs" := "abs",
    "chr" := "chr",
    "bin" := "to_s(2)",
    "oct" := "to_s(8)",
    "hex" := "to_s(16)",
    "len" := "size",
    "all" := "is_all?",
    "any" := "is_any?",
    "iter" := "each",
    "sum" := "sum",
    "round" := "round"
  ]

  const MinMaxMethods: set<string> := {"max", "min"}

  const AttributeMap: map<string, string> := map[
    "count" := "py_count",
    "upper" := "upcase",
    "lower" := "downcase",
    "endswith" := "ends_with?",
    "startswith" := "starts_with?",
    "replace" := "py_replace",
    "zip" := "py_zip",
    "find" := "py_find",
    "rfind" := "py_rfind",
    "split" := "py_split",
    "strip" := "py_strip",
    "lstrip" := "py_lstrip",
    "rstrip" := "py_rstrip",
    "append" := "push",
    "sort" := "sort!",
    "reverse" := "reverse!",
    "extend" := "concat",
    "items" := "to_a",
    "write" := "print",
    "read" := "py_read"
  ]

  const AttributeNotArg: map<string, string> := map[
    "split" := "split",
    "splitlines" := "split(\"\n\")"
  ]

  const AttributeWithArg: map<string, string> := map["split" := "py_split"]

  const CallAttributeMap: set<string> := {"join"}

  // ---------------------------------------------------------------------
  // ope_filter

  /** The text contains one of the arithmetic operator characters `- + * / %`. */
  predicate HasOperator(s: string)
  {
    Contains(s, '-') || Contains(s, '+') || Contains(s, '*') || Contains(s, '/') || Contains(s, '%')
  }

  /** `ope_filter`: parenthesise text that looks like arithmetic. */
  function OpeFilter(s: string): (r: string)
    ensures HasOperator(s) ==> r == "(" + s + ")"
    ensures !HasOperator(s) ==> r == s
  {
    if Contains(s, '-') then "(" + s + ")"
    else if Contains(s, '+') then "(" + s + ")"
    else if Contains(s, '*') then "(" + s + ")"
    else if Contains(s, '/') then "(" + s + ")"
    else if Contains(s, '%') then "(" + s + ")"
    else s
  }

  /** The filtered text always still holds the original text, and holds an operator exactly when the original does. */
  lemma OpeFilterShape(s: string)
    ensures HasOperator(OpeFilter(s)) <==> HasOperator(s)
    ensures OpeFilter(s) == s || (|OpeFilter(s)| == |s| + 2 && OpeFilter(s)[1..|s| + 1] == s)
  {
    var r := OpeFilter(s);
    if HasOperator(s) {
      forall c: char | Contains(s, c) ensures Contains(r, c) {
        var i :| 0 <= i < |s| && s[i] == c;
        assert r[i + 1] == c;
      }
    }
  }

  lemma OpeFilterExamples()
    ensures OpeFilter("a") == "a"
    ensures OpeFilter("a + b") == "(a + b)"
    ensures OpeFilter("x % 2") == "(x % 2)"
  {
    assert Contains("a + b", '+') by { assert "a + b"[2] == '+'; }
    assert Contains("x % 2", '%') by { assert "x % 2"[2] == '%'; }
  }

  // ---------------------------------------------------------------------
  // Comparisons

  const ComparisonOp: map<CmpOp, string> := map[
    Eq := "==", NotEq := "!=", Lt := "<", LtE := "<=", Gt := ">", GtE := ">=", Is := "==="
  ]

  /** `compare_pair`: one comparison, with `__name__ == "__main__"` turned into `__FILE__ == PROGRAM_NAME`. */
  /** The `__name__ == "__main__"` idiom, in either order. */
  predicate MainPair(left: string, comp: string)
  {
    (left == "__name__" && comp == "\"__main__\"") || (left == "\"__main__\"" && comp == "__name__")
  }

  function ComparePair(left: string, comp: string, op: CmpOp): string
  {
    var isMain := MainPair(left, comp);
    var l := if isMain then "__FILE__" else left;
    var c := if isMain then "PROGRAM_NAME" else comp;
    match op
    case In => c + ".py_in?(" + l + ")"
    case NotIn => "!" + c + ".py_in?(" + l + ")"
    case Eq => l + " == " + c
    case NotEq => l + " != " + c
    case IsNot => "!" + l + ".equal?(" + c + ")"
    case _ => l + " " + ComparisonOp[op] + " " + c
  }

  /** The main idiom, in either order, compares the file with the program name. */
  lemma ComparePairMainIdiom(left: string, comp: string)
    requires MainPair(left, comp)
    ensures ComparePair(left, comp, Eq) == "__FILE__ == PROGRAM_NAME"
    ensures ComparePair(left, comp, NotEq) == "__FILE__ != PROGRAM_NAME"
  {
    assert "__FILE__" + " == " + "PROGRAM_NAME" == "__FILE__ == PROGRAM_NAME";
    assert "__FILE__" + " != " + "PROGRAM_NAME" == "__FILE__ != PROGRAM_NAME";
  }

  /** Membership puts the container first: `a in b` is `b.py_in?(a)`. */
  lemma ComparePairIn(a: string, b: string)
    requires a != "__name__" && a != "\"__main__\""
    ensures ComparePair(a, b, In) == b + ".py_in?(" + a + ")"
    ensures ComparePair(a, b, NotIn) == "!" + b + ".py_in?(" + a + ")"
  {
  }

  /** The chain of pairs: a single pair as is, several parenthesised and joined by `&&`. */
  function Chain(pairs: seq<string>): string
  {
    if |pairs| == 1 then pairs[0] else Join(Parenthesised(pairs), " && ")
  }

  function Parenthesised(pairs: seq<string>): (r: seq<string>)
    ensures |r| == |pairs|
    ensures forall i :: 0 <= i < |pairs| ==> r[i] == "(" + pairs[i] + ")"
  {
    seq(|pairs|, i requires 0 <= i < |pairs| => "(" + pairs[i] + ")")
  }

  /**
   * The pairs of `a op1 b op2 c ...`: each comparator is the left operand
   * of the next pair.
   */
  function Pairs(left: string, ops: seq<CmpOp>, comps: seq<string>): (r: seq<string>)
    requires |ops| == |comps|
    ensures |r| == |ops|
    ensures |ops| > 0 ==> r[0] == ComparePair(left, comps[0], ops[0])
    ensures forall i :: 0 < i < |ops| ==> r[i] == ComparePair(comps[i - 1], comps[i], ops[i])
    decreases |ops|
  {
    if |ops| == 0 then []
    else [ComparePair(left, comps[0], ops[0])] + Pairs(comps[0], ops[1..], comps[1..])
  }

  /** Pair `i` of the chain has the previous comparator, or `left` for the first, as its left operand. */
  lemma PairsAt(left: string, ops: seq<CmpOp>, comps: seq<string>, i: nat)
    requires |ops| == |comps| && i < |ops|
    ensures Pairs(left, ops, comps)[i] == ComparePair(if i == 0 then left else comps[i - 1], comps[i], ops[i])
  {
  }

  lemma ParenthesisedSnoc(pairs: seq<string>, i: nat)
    requires i < |pairs|
    ensures Parenthesised(pairs[..i + 1]) == Parenthesised(pairs[..i]) + ["(" + pairs[i] + ")"]
  {
    assert pairs[..i + 1] == pairs[..i] + [pairs[i]];
  }

  lemma ChainOfOne(pairs: seq<string>)
    requires |pairs| == 1
    ensures Chain(pairs) == pairs[0]
  {
  }

  /** The comparison loop of `visit_Compare`, over already rendered operands. */
  method CompareChain(left: string, ops: seq<CmpOp>, comps: seq<string>) returns (r: string)
    requires |ops| == |comps|
    ensures r == Chain(Pairs(left, ops, comps))
  {
    ghost var pairs := Pairs(left, ops, comps);
    var compareList: seq<string> := [];
    var i := 0;
    while i < |ops|
      invariant 0 <= i <= |ops|
      invariant |ops| == 1 ==> i == 0
      invariant compareList == Parenthesised(pairs[..i])
    {
      var l := if i == 0 then left else comps[i - 1];
      var pair := ComparePair(l, comps[i], ops[i]);
      PairsAt(left, ops, comps, i);
      if |ops| == 1 {
        ChainOfOne(pairs);
        return pair;
      }
      ParenthesisedSnoc(pairs, i);
      compareList := compareList + ["(" + pair + ")"];
      i := i + 1;
    }
    assert pairs[..i] == pairs;
    r := Join(compareList, " && ");
  }

  /** Two pairs are each parenthesised and joined by `&&`. */
  lemma ChainOfTwo(p: seq<string>)
    requires |p| == 2
    ensures Chain(p) == "(" + p[0] + ")" + " && " + "(" + p[1] + ")"
  {
    var q := Parenthesised(p);
    assert q[1..] == [q[1]];
    assert Join(q[1..], " && ") == q[1];
    assert Join(q, " && ") == q[0] + " && " + q[1];
    assert q[0] == "(" + p[0] + ")" && q[1] == "(" + p[1] + ")";
  }

  /** `a < b < c` is `(a < b) && (b < c)`. */
  lemma ChainTwo(a: string, b: string, c: string)
    requires a != "__name__" && a != "\"__main__\"" && b != "__name__" && b != "\"__main__\""
    ensures Chain(Pairs(a, [Lt, Lt], [b, c])) == "(" + (a + " < " + b) + ")" + " && " + "(" + (b + " < " + c) + ")"
  {
    var p := Pairs(a, [Lt, Lt], [b, c]);
    assert p[0] == a + " < " + b;
    assert p[1] == b + " < " + c;
    ChainOfTwo(p);
  }

  // ---------------------------------------------------------------------
  // Tuples

  /** `visit_Tuple` over rendered elements, in the five rendering modes of `_tuple_type`. */
  function TupleText(tupleType: string, els: seq<string>): (r: Result<string>)
    ensures |els| == 0 ==> r == Ok("Tuple.new")
    ensures |els| > 0 && tupleType == "()" ==> r == Ok("(" + Join(els, ", ") + ")")
    ensures |els| > 0 && tupleType == "[]" ==> r == Ok("{" + Join(els, ", ") + "}")
    ensures |els| > 0 && tupleType == "" ==> r == Ok(Join(els, ", "))
    ensures |els| >= 2 && tupleType == "=>" ==> r == Ok(els[0] + " => " + els[1])
    ensures |els| > 0 && tupleType !in {"()", "[]", "=>", ""} ==> r == Err(ConvertError("tuples in argument list Error"))
  {
    if |els| == 0 then Ok("Tuple.new")
    else if tupleType == "()" then Ok("(" + Join(els, ", ") + ")")
    else if tupleType == "[]" then Ok("{" + Join(els, ", ") + "}")
    else if tupleType == "=>" then
      if |els| < 2 then Err(RuntimeFault("IndexError")) else Ok(els[0] + " => " + els[1])
    else if tupleType == "" then Ok(Join(els, ", "))
    else Err(ConvertError("tuples in argument list Error"))
  }

  // ---------------------------------------------------------------------
  // Slices

  /** The range of `process_slice_with_step`: `lo...up`, or `lo..-1` without an upper bound; `lo` defaults to `0`. */
  function SliceRange(lower: Option<string>, upper: Option<string>): string
  {
    var lo := lower.GetOr("0");
    match upper
    case Some(up) => lo + "..." + up
    case None => lo + "..-1"
  }

  /** `x[lo:up:step]` under `visit_Subscript`. */
  function SliceSubscript(target: string, lower: Option<string>, upper: Option<string>, step: Option<string>): (r: string)
  {
    var base := OpeFilter(target) + "[" + SliceRange(lower, upper) + "]";
    match step
    case Some(s) => base + ".each_slice(" + s + ").map(&.first)"
    case None => base
  }

  /** A slice is the target indexed by its range, followed by the stepping call exactly when there is a step. */
  lemma SliceSubscriptShape(target: string, lower: Option<string>, upper: Option<string>, step: Option<string>)
    ensures var r := SliceSubscript(target, lower, upper, step);
      StartsWith(r, OpeFilter(target) + "[" + SliceRange(lower, upper) + "]")
      && (step.None? ==> r == OpeFilter(target) + "[" + SliceRange(lower, upper) + "]")
      && (step.Some? ==> EndsWith(r, ".each_slice(" + step.value + ").map(&.first)"))
  {
    var base := OpeFilter(target) + "[" + SliceRange(lower, upper) + "]";
    Affixes(base, "");
    if step.Some? {
      var sfx := ".each_slice(" + step.value + ").map(&.first)";
      assert SliceSubscript(target, lower, upper, step) == base + sfx;
      Affixes(base, sfx);
    } else {
      assert SliceSubscript(target, lower, upper, step) == base;
      assert base + "" == base;
    }
  }

  lemma SliceForms(x: string, lo: string, up: string, st: string)
    requires !HasOperator(x)
    ensures SliceSubscript(x, Some(lo), None, None) == x + "[" + lo + "..-1]"
    ensures SliceSubscript(x, None, Some(up), None) == x + "[" + "0..." + up + "]"
    ensures SliceSubscript(x, Some(lo), Some(up), None) == x + "[" + lo + "..." + up + "]"
    ensures SliceSubscript(x, None, None, Some(st)) == x + "[" + "0..-1" + "]" + ".each_slice(" + st + ").map(&.first)"
  {
    assert OpeFilter(x) == x;
    assert SliceRange(None, None) == "0" + "..-1";
    assert "0" + "..-1" == "0..-1";
    assert SliceRange(None, Some(up)) == "0" + "..." + up;
    assert "0" + "..." + up == "0..." + up;
  }

  /** The documented example: `x[3:]` is `x[3..-1]`. */
  lemma SliceExample()
    ensures SliceSubscript("x", Some("3"), None, None) == "x[3..-1]"
  {
    assert !HasOperator("x") by {
      assert !Contains("x", '-') && !Contains("x", '+') && !Contains("x", '*') && !Contains("x", '/') && !Contains("x", '%');
    }
    SliceForms("x", "3", "", "");
    assert "x" + "[" + "3" + "..-1]" == "x[3..-1]";
  }

  // ---------------------------------------------------------------------
  // Fresh names

  /** `new_dummy`'s name for counter value `k`. */
  function DummyName(k: nat): string
  {
    "__dummy" + NatToString(k) + "__"
  }

  /** Different counter values give different names. */
  lemma DummyNamesDistinct(i: nat, j: nat)
    requires i != j
    ensures DummyName(i) != DummyName(j)
  {
    if DummyName(i) == DummyName(j) {
      var a, b := DummyName(i), DummyName(j);
      assert a[7..|a| - 2] == NatToString(i);
      assert b[7..|b| - 2] == NatToString(j);
      NatToStringInjective(i, j);
    }
  }

  // ---------------------------------------------------------------------
  // Function defaults tables and call-site keywords

  /**
   * One slot of a function's defaults table: a positional parameter
   * without (`None`) or with (its name) a default, and the markers for
   * `*args` (`[None]`) and `**kw` (`[]`).
   */
  datatype Slot = NoDefault | Named(id: string) | StarMarker | StarStarMarker

  /** A table is used for keyword rewriting only when it has no `*args` marker. */
  predicate Usable(slots: seq<Slot>)
  {
    forall i :: 0 <= i < |slots| ==> slots[i] != StarMarker
  }

  /**
   * The keyword rewriting of `visit_Call`: argument `i` whose slot names a
   * defaulted parameter becomes `name: arg`. The count of positions looked
   * at is that of the arguments, less one when the first is `self`.
   */
  function Rewritten(cry: seq<string>, slots: seq<Slot>): (r: seq<string>)
    ensures |r| == |cry|
  {
    var n := if |cry| > 0 && cry[0] == "self" then |cry| - 1 else |cry|;
    seq(|cry|, i requires 0 <= i < |cry| =>
      if i < n && i < |slots| && slots[i].Named? then slots[i].id + ": " + cry[i] else cry[i])
  }

  method RewriteKeywords(cry: seq<string>, slots: seq<Slot>) returns (r: seq<string>)
    ensures r == Rewritten(cry, slots)
  {
    var args := if |cry| > 0 && cry[0] == "self" then cry[1..] else cry;
    r := cry;
    var i := 0;
    while i < |args|
      invariant 0 <= i <= |args|
      invariant |r| == |cry|
      invariant forall k :: 0 <= k < |cry| ==> r[k] == (if k < i && k < |slots| && slots[k].Named? then slots[k].id + ": " + cry[k] else cry[k])
    {
      if |slots| <= i {
        break;
      }
      if slots[i].Named? {
        r := r[i := slots[i].id + ": " + cry[i]];
      }
      i := i + 1;
    }
  }

  /** `def f(a, b=3)` then `f(x, 5)` gives `f(x, b: 5)`, and `f(x)` is unchanged. */
  lemma RewriteExample(x: string, five: string)
    requires x != "self"
    ensures Rewritten([x, five], [NoDefault, Named("b")]) == [x, "b: " + five]
    ensures Rewritten([x], [NoDefault, Named("b")]) == [x]
  {
    var r := Rewritten([x, five], [NoDefault, Named("b")]);
    assert r[0] == x;
    assert r[1] == "b: " + five;
    var r1 := Rewritten([x], [NoDefault, Named("b")]);
    assert r1[0] == x;
  }

  /** Positions without a named slot are never touched, and named ones only gain a `name: ` prefix. */
  lemma RewrittenPositions(cry: seq<string>, slots: seq<Slot>, i: nat)
    requires i < |cry|
    ensures Rewritten(cry, slots)[i] == cry[i] || (i < |slots| && slots[i].Named? && Rewritten(cry, slots)[i] == slots[i].id + ": " + cry[i])
    ensures !(i < |slots| && slots[i].Named?) ==> Rewritten(cry, slots)[i] == cry[i]
  {
  }
}
