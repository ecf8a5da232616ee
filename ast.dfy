/**
 * The closed subset of Python syntax trees the translator model works on.
 * Node kinds outside it are represented by `Other` / `OtherStmt` and carry
 * no fields the model reads.
 */
module Ast {
  import opened Wrappers

  /** The value of a `Constant` node. */
  datatype Const =
    | CBool(b: bool)
    | CNone
    | CInt(i: int)
    | CFloat(literal: string)
    | CComplex(literal: string)
    | CStr(s: string)
    | CBytes(bytes: string)
    | CEllipsis
  {
    /** `type(value).__name__` in Python. */
    function ClassName(): string
    {
      match this
      case CBool(_) => "bool"
      case CNone => "NoneType"
      case CInt(_) => "int"
      case CFloat(_) => "float"
      case CComplex(_) => "complex"
      case CStr(_) => "str"
      case CBytes(_) => "bytes"
      case CEllipsis => "ellipsis"
    }
  }

  datatype CmpOp = Eq | NotEq | Lt | LtE | Gt | GtE | Is | IsNot | In | NotIn

  datatype Node =
    | Name(id: string)
    | Constant(c: Const)
    | Tuple(elts: seq<Node>)
    | List(elts: seq<Node>)
    | Dict(keys: seq<Node>, values: seq<Node>)
    | Attribute(value: Node, attr: string)
    | Subscript(value: Node, slice: Node)
    | Slice(lower: Option<Node>, upper: Option<Node>, step: Option<Node>)
    | Compare(left: Node, ops: seq<CmpOp>, comparators: seq<Node>)
    | Call(func: Node, args: seq<Node>, keywords: seq<Keyword>)
    | Lambda(params: Arguments, body: Node)
    /** A parameter node (`ast.arg`) visited as an expression. */
    | ArgNode(arg: string)
    | Other(kind: string)

  datatype Keyword = Keyword(arg: Option<string>, value: Node)

  datatype Arg = Arg(name: string, annotation: Option<Node>)

  /** `ast.arguments`; `kwDefaults` has one entry per keyword-only parameter. */
  datatype Arguments = Arguments(
    args: seq<Arg>,
    vararg: Option<Arg>,
    kwonlyargs: seq<Arg>,
    kwDefaults: seq<Option<Node>>,
    kwarg: Option<Arg>,
    defaults: seq<Node>)

  /**
   * The statements the model translates; `Import` holds the first alias
   * of the statement, the only one the translator reads.
   */
  datatype Stmt =
    | FunctionDef(name: string, params: Arguments, body: seq<Stmt>, decorators: seq<Node>, returnAnno: Option<Node>)
    | ClassDef(name: string, bases: seq<Node>, body: seq<Stmt>)
    | For(target: Node, iter: Node, body: seq<Stmt>, orelse: seq<Stmt>)
    | While(test: Node, body: seq<Stmt>, orelse: seq<Stmt>)
    | ExprStmt(expr: Node)
    | Return(retValue: Option<Node>)
    | Pass
    | Break
    | Continue
    | Import(modName: string, asname: Option<string>)
    | OtherStmt(kind: string)

  /** `type(node).__name__`, which drives the visitor's dispatch. */
  function KindName(n: Node): string
  {
    match n
    case Name(_) => "Name"
    case Constant(_) => "Constant"
    case Tuple(_) => "Tuple"
    case List(_) => "List"
    case Dict(_, _) => "Dict"
    case Attribute(_, _) => "Attribute"
    case Subscript(_, _) => "Subscript"
    case Slice(_, _, _) => "Slice"
    case Compare(_, _, _) => "Compare"
    case Call(_, _, _) => "Call"
    case Lambda(_, _) => "Lambda"
    case ArgNode(_) => "arg"
    case Other(k) => k
  }

  function StmtKindName(s: Stmt): string
  {
    match s
    case FunctionDef(_, _, _, _, _) => "FunctionDef"
    case ClassDef(_, _, _) => "ClassDef"
    case For(_, _, _, _) => "For"
    case While(_, _, _) => "While"
    case ExprStmt(_) => "Expr"
    case Return(_) => "Return"
    case Pass => "Pass"
    case Break => "Break"
    case Continue => "Continue"
    case Import(_, _) => "Import"
    case OtherStmt(k) => k
  }

  /** A string literal (`ast.Str` in the translator's checks). */
  predicate IsStr(n: Node)
  {
    n.Constant? && n.c.CStr?
  }
}
