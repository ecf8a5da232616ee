/**
 * Translation of Python type annotations into Crystal type text
 * (`List[int]` to `Array(Int32)`, `Optional[str]` to `String?`, ...).
 */
module CrystalTypes {
  import opened Wrappers
  import opened Strings
  import opened Ast

  /** Python type names and their Crystal counterparts. */
  const NameMap: map<string, string> := map[
    "bool" := "Bool",
    "True" := "true",
    "False" := "false",
    "None" := "Nil",
    "str" := "String",
    "int" := "Int32",
    "float" := "Float64",
    "list" := "Array",
    "bytes" := "Bytes",
    "List" := "Array",
    "tuple" := "Tuple",
    "dict" := "Hash",
    "Dict" := "Hash"
  ]

  const UnknownKind: Error := Raised("Unknown klass in CrystalTypes")

  function VisitName(id: string): (r: string)
    ensures id in NameMap ==> r == NameMap[id]
    ensures id !in NameMap ==> r == id
  {
    if id in NameMap then NameMap[id] else id
  }

  /** The only ways an annotation visit fails: a kind without a visitor, or a `Union` slice without elements. */
  predicate AnnotationError(e: Error)
  {
    e == UnknownKind || e == RuntimeFault("AttributeError")
  }

  /** `visit`: an annotation tree to Crystal type text. */
  function Visit(n: Node): (r: Result<string>)
    ensures n.Name? || n.Constant? ==> r.Ok?
    ensures r.Err? ==> AnnotationError(r.error)
    ensures !(n.Name? || n.Subscript? || n.Tuple? || n.Constant? || n.Attribute?) ==> r == Err(UnknownKind)
    decreases n, 1
  {
    match n
    case Name(id) => Ok(VisitName(id))
    case Subscript(_, _) => VisitSubscript(n)
    case Tuple(elts) =>
      var parts :- VisitAll(elts);
      Ok(Join(parts, ", "))
    case Constant(c) => Ok(if c.ClassName() in NameMap then NameMap[c.ClassName()] else "_")
    case Attribute(value, _) => Visit(value)
    case _ => Err(UnknownKind)
  }

  function VisitAll(ns: seq<Node>): (r: Result<seq<string>>)
    ensures r.Ok? ==> |r.value| == |ns|
    ensures r.Err? ==> AnnotationError(r.error)
    decreases ns
  {
    if |ns| == 0 then Ok([])
    else
      var first :- Visit(ns[0]);
      var rest :- VisitAll(ns[1..]);
      Ok([first] + rest)
  }

  /** `X[T]` as `X(T)`, with `Union` and `Optional` rendered specially. */
  function VisitSubscript(n: Node): (r: Result<string>)
    requires n.Subscript?
    ensures r.Err? ==> AnnotationError(r.error)
    ensures r.Ok? ==> Visit(n.value).Ok?
    ensures Visit(n.value) == Ok("Optional") ==>
      (r.Ok? <==> Visit(n.slice).Ok?) && (r.Ok? ==> r.value == Visit(n.slice).value + "?")
    decreases n, 0
  {
    var name :- Visit(n.value);
    if name == "Union" then
      if n.slice.Tuple? || n.slice.List? then
        var parts :- VisitAll(n.slice.elts);
        Ok("( " + Join(parts, " | ") + " )")
      else Err(RuntimeFault("AttributeError"))
    else if name == "Optional" then
      var t :- Visit(n.slice);
      Ok(t + "?")
    else
      var t :- Visit(n.slice);
      Ok(name + "(" + t + ")")
  }

  /** The check shared by the unwrap queries: `X[...]` with `X.lower() == expected`. */
  function CheckSubscriptOf(n: Node, expected: string): (r: Result<()>)
    ensures r.Ok? <==> n.Subscript? && n.value.Name? && Lower(n.value.id) == expected
  {
    if !n.Subscript? then Err(Raised("Expecting a ast.Subscript to unwrap"))
    else if !n.value.Name? then Err(RuntimeFault("AttributeError"))
    else if Lower(n.value.id) != expected then Err(Raised("Expecting ast.Subscript value to be a " + expected))
    else Ok(())
  }

  /** `unwrap_list`: the element type text of `List[T]`. */
  function UnwrapList(n: Node): (r: Result<string>)
    ensures r.Ok? ==> n.Subscript? && n.value.Name? && Lower(n.value.id) == "list" && r == Visit(n.slice)
    ensures n.Subscript? && n.value.Name? && Lower(n.value.id) == "list" ==> r == Visit(n.slice)
  {
    var _ :- CheckSubscriptOf(n, "list");
    Visit(n.slice)
  }

  /** `unwrap_tuple`: the element type text of `Tuple[...]`. */
  function UnwrapTuple(n: Node): (r: Result<string>)
    ensures r.Ok? ==> n.Subscript? && n.value.Name? && Lower(n.value.id) == "tuple" && r == Visit(n.slice)
    ensures n.Subscript? && n.value.Name? && Lower(n.value.id) == "tuple" ==> r == Visit(n.slice)
  {
    var _ :- CheckSubscriptOf(n, "tuple");
    Visit(n.slice)
  }

  /** `unwrap_dict`: the key and value type texts of `Dict[K, V]`. */
  function UnwrapDict(n: Node): (r: Result<(string, string)>)
    ensures r.Ok? ==>
      n.Subscript? && n.value.Name? && Lower(n.value.id) == "dict" &&
      n.slice.Tuple? && |n.slice.elts| >= 2 &&
      Visit(n.slice.elts[0]) == Ok(r.value.0) && Visit(n.slice.elts[1]) == Ok(r.value.1)
    ensures !(n.Subscript? && n.value.Name? && Lower(n.value.id) == "dict" && n.slice.Tuple?) ==> r.Err?
    ensures n.Subscript? && n.value.Name? && Lower(n.value.id) == "dict" && n.slice.Tuple? && |n.slice.elts| >= 2
      && Visit(n.slice.elts[0]).Ok? && Visit(n.slice.elts[1]).Ok?
      ==> r == Ok((Visit(n.slice.elts[0]).value, Visit(n.slice.elts[1]).value))
  {
    var _ :- CheckSubscriptOf(n, "dict");
    if !n.slice.Tuple? then Err(Raised("Expecting ast.Tuple here and didnt get one."))
    else if |n.slice.elts| == 0 then Err(RuntimeFault("IndexError"))
    else
      var k :- Visit(n.slice.elts[0]);
      if |n.slice.elts| < 2 then Err(RuntimeFault("IndexError"))
      else
        var v :- Visit(n.slice.elts[1]);
        Ok((k, v))
  }

  /** Tuple elements must have a `value` field for `constant` to print them. */
  predicate HasValueField(n: Node)
  {
    n.Constant? || n.Attribute? || n.Subscript?
  }

  /**
   * `constant`: the nilable Crystal type of a class-variable initializer.
   * `None` stands for a type name that `NameMap` cannot hold (a call's
   * printed form, or a bare name).
   */
  function ConstantTypeName(n: Node): (r: Result<Option<string>>)
    ensures r.Ok? <==>
      n.Constant? || n.Dict? || n.Call? || n.Name? || (n.Tuple? && forall i :: 0 <= i < |n.elts| ==> HasValueField(n.elts[i]))
    ensures r.Ok? ==> (r.value.None? <==> n.Call? || n.Name?)
  {
    match n
    case Constant(c) => Ok(Some(c.ClassName()))
    case Tuple(elts) =>
      if forall i :: 0 <= i < |elts| ==> HasValueField(elts[i]) then Ok(Some("tuple"))
      else Err(RuntimeFault("AttributeError"))
    case Dict(_, _) => Ok(Some("dict"))
    case Call(_, _, _) => Ok(None)
    case Name(_) => Ok(None)
    case _ => Err(Raised("Invalid constant node"))
  }

  function Constant(n: Node, nilable: bool): (r: Result<string>)
    ensures r.Ok? <==> ConstantTypeName(n).Ok?
    ensures r.Ok? ==>
      var t := ConstantTypeName(n).value;
      r.value == if t.Some? && t.value in NameMap then (if nilable then NameMap[t.value] + "?" else NameMap[t.value]) else "_"
  {
    var tn :- ConstantTypeName(n);
    if tn.Some? && tn.value in NameMap then
      Ok(if nilable then NameMap[tn.value] + "?" else NameMap[tn.value])
    else Ok("_")
  }

  // ---------------------------------------------------------------------
  // Properties of the annotator

  /** A bare annotation name is mapped, or passes through unchanged. */
  lemma NameAnnotation(id: string)
    ensures Visit(Name(id)) == Ok(if id in NameMap then NameMap[id] else id)
  {
  }

  /**
   * A generic subscript `X[T]` renders as `X(T)`: the head's text, then
   * the slice's text in parentheses, for any slice.
   */
  lemma GenericSubscript(head: Node, s: Node, h: string, t: string)
    requires Visit(head) == Ok(h) && h != "Union" && h != "Optional"
    requires Visit(s) == Ok(t)
    ensures Visit(Subscript(head, s)) == Ok(h + "(" + t + ")")
  {
    assert Visit(Subscript(head, s)) == VisitSubscript(Subscript(head, s));
  }

  /** With several arguments, `X[A, B]` is `X(A, B)`: the argument texts comma-joined. */
  lemma GenericTupleSubscript(head: Node, args: seq<Node>, h: string, ts: seq<string>)
    requires Visit(head) == Ok(h) && h != "Union" && h != "Optional"
    requires VisitAll(args) == Ok(ts)
    ensures Visit(Subscript(head, Tuple(args))) == Ok(h + "(" + Join(ts, ", ") + ")")
  {
    assert Visit(Tuple(args)) == Ok(Join(ts, ", "));
    GenericSubscript(head, Tuple(args), h, Join(ts, ", "));
  }

  lemma ListOfInt()
    ensures Visit(Subscript(Name("List"), Name("int"))) == Ok("Array(Int32)")
  {
    GenericSubscript(Name("List"), Name("int"), "Array", "Int32");
    assert "Array" + "(" + "Int32" + ")" == "Array(Int32)";
  }

  lemma DictOfStrInt()
    ensures Visit(Subscript(Name("Dict"), Tuple([Name("str"), Name("int")]))) == Ok("Hash(String, Int32)")
  {
    var args := [Name("str"), Name("int")];
    assert args[1..] == [Name("int")];
    assert [Name("int")][1..] == [];
    assert VisitAll([]) == Ok([]);
    assert Visit(Name("int")) == Ok("Int32");
    var one := [Name("int")];
    assert one[1..] == [];
    assert VisitAll(one) == Ok(["Int32"] + []);
    assert ["Int32"] + [] == ["Int32"];
    assert Visit(Name("str")) == Ok("String");
    assert VisitAll(args) == Ok(["String"] + ["Int32"]);
    assert ["String"] + ["Int32"] == ["String", "Int32"];
    assert Join(["String", "Int32"], ", ") == "String, Int32" by {
      assert ["String", "Int32"][1..] == ["Int32"];
    }
    GenericTupleSubscript(Name("Dict"), args, "Hash", ["String", "Int32"]);
    assert "Hash" + "(" + "String, Int32" + ")" == "Hash(String, Int32)";
  }

  /** `Optional[T]` is the text of `T` followed by `?`. */
  lemma OptionalAnnotation(t: Node)
    ensures Visit(t).Ok? ==> Visit(Subscript(Name("Optional"), t)) == Ok(Visit(t).value + "?")
    ensures Visit(t).Err? ==> Visit(Subscript(Name("Optional"), t)).Err?
  {
    assert Visit(Name("Optional")) == Ok("Optional");
    assert Visit(Subscript(Name("Optional"), t)) == VisitSubscript(Subscript(Name("Optional"), t));
  }

  /** `Union[A, B, ...]` is `( A | B | ... )`; a non-tuple argument raises. */
  lemma UnionAnnotation(args: seq<Node>, ts: seq<string>)
    requires VisitAll(args) == Ok(ts)
    ensures Visit(Subscript(Name("Union"), Tuple(args))) == Ok("( " + Join(ts, " | ") + " )")
  {
    assert Visit(Name("Union")) == Ok("Union");
    assert Visit(Subscript(Name("Union"), Tuple(args))) == VisitSubscript(Subscript(Name("Union"), Tuple(args)));
  }

  lemma UnionOfNameRaises(id: string)
    ensures Visit(Subscript(Name("Union"), Name(id))).Err?
  {
    assert Visit(Name("Union")) == Ok("Union");
    assert Visit(Subscript(Name("Union"), Name(id))) == VisitSubscript(Subscript(Name("Union"), Name(id)));
  }

  /** Every node kind other than the six handled ones raises. */
  lemma UnhandledKindRaises(n: Node)
    requires !(n.Name? || n.Subscript? || n.Tuple? || n.Constant? || n.Attribute?)
    ensures Visit(n) == Err(UnknownKind)
  {
  }

  /** An attribute annotation is rendered from its object alone, so `typing.List[int]` becomes `typing(Int32)`. */
  lemma QualifiedGeneric()
    ensures Visit(Subscript(Attribute(Name("typing"), "List"), Name("int"))) == Ok("typing(Int32)")
  {
    assert Visit(Attribute(Name("typing"), "List")) == Ok("typing");
    assert "typing" + "(" + "Int32" + ")" == "typing(Int32)";
  }

  /** The recognised annotation shapes: the translation never fails on them. */
  predicate Simple(n: Node)
    decreases n
  {
    match n
    case Name(id) => id != "Union"
    case Constant(_) => true
    case Attribute(value, _) => Simple(value)
    case Subscript(value, slice) => value.Name? && value.id != "Union" && Simple(slice)
    case Tuple(elts) => |elts| != 1 && forall i :: 0 <= i < |elts| ==> Simple(elts[i])
    case _ => false
  }

  lemma {:induction false} SimpleVisits(n: Node)
    requires Simple(n)
    ensures Visit(n).Ok?
    decreases n
  {
    match n
    case Name(_) =>
    case Constant(_) =>
    case Attribute(value, _) => SimpleVisits(value);
    case Subscript(value, slice) =>
      SimpleVisits(slice);
      assert Visit(value) == Ok(VisitName(value.id));
    case Tuple(elts) => SimpleVisitsAll(elts);
  }

  lemma {:induction false} SimpleVisitsAll(ns: seq<Node>)
    requires forall i :: 0 <= i < |ns| ==> Simple(ns[i])
    ensures VisitAll(ns).Ok?
    decreases ns
  {
    if |ns| > 0 {
      SimpleVisits(ns[0]);
      SimpleVisitsAll(ns[1..]);
    }
  }

  /** `unwrap_list` accepts `List[T]` and `list[T]` alike and yields the text of `T`. */
  lemma UnwrapListCase(t: Node)
    ensures UnwrapList(Subscript(Name("List"), t)) == Visit(t)
    ensures UnwrapList(Subscript(Name("list"), t)) == Visit(t)
  {
  }

  /** `Dict[str, int]` unwraps to the key type `String` and the value type `Int32`. */
  lemma UnwrapDictStrInt()
    ensures UnwrapDict(Subscript(Name("Dict"), Tuple([Name("str"), Name("int")]))) == Ok(("String", "Int32"))
  {
    var n := Subscript(Name("Dict"), Tuple([Name("str"), Name("int")]));
    assert Lower("Dict") == "dict";
    assert n.slice.elts[0] == Name("str") && n.slice.elts[1] == Name("int");
    assert Visit(Name("str")) == Ok("String");
    assert Visit(Name("int")) == Ok("Int32");
  }

  /** A nilable constant type is the plain type with `?`; unmapped types are `_` either way. */
  lemma {:induction false} ConstantNilable(n: Node)
    ensures Constant(n, true).Ok? <==> Constant(n, false).Ok?
    ensures Constant(n, false).Ok? ==>
      Constant(n, true).value == (if Constant(n, false).value == "_" then "_" else Constant(n, false).value + "?")
  {
  }

  lemma ConstantExamples()
    ensures Constant(Ast.Constant(CInt(3)), true) == Ok("Int32?")
    ensures Constant(Ast.Constant(CStr("a")), true) == Ok("String?")
    ensures Constant(Dict([], []), true) == Ok("Hash?")
    ensures Constant(Ast.Constant(CInt(3)), false) == Ok("Int32")
    ensures Constant(Name("x"), true) == Ok("_")
    ensures Constant(Ast.Constant(CNone), true) == Ok("_")
    ensures Constant(List([]), true).Err?
  {
    assert NameMap["int"] + "?" == "Int32?";
    assert NameMap["str"] + "?" == "String?";
    assert NameMap["dict"] + "?" == "Hash?";
  }
}
