# py2cr core in Dafny

py2cr translates a Python module into Crystal source text. Its core is made of four parts:

- **The `RB` visitor.** It walks the Python syntax tree and writes Crystal lines through a `Formatter`, which keeps the indentation and the pending output.
- **A result status.** It records whether the run stayed clean, warned or failed. The action on an unsupported construct depends on the operation mode: stop, warn, or skip silently.
- **`CrystalTypes`.** It turns Python type annotations into Crystal types.
- **The `TranslatorRegistry`.** Translation rule classes register here, one per Python module they claim (`os`, `os.path`, `sys`, `six`, `copy`, `numpy`, `random`, the builtins). A call such as `os.path.join(a, b)` or `range(n)` is looked up by its module and name, and turned into Crystal by the rule found.
- **`convert_py2cr`** ties these together. It makes a silent pass over the helper modules, then converts the target in stop or warning mode.

The project follows that structure. Each Dafny module is listed with what it models:

| module | models |
|---|---|
| `Formatter` | The formatter, as a class. |
| `CrystalTypes` | The annotation visitor, as pure functions. |
| `Translator` | The registry, as a class whose tables are built by a loop over the rule sets in definition order. |
| `PyMain`, `PyOs`, `PySys`, `PySix`, `PyCopy`, `Numpy` | One module per rules file: the rule set constants and one function per rule. |
| `Registry` | The registration order and the dispatch from a looked-up rule to its function. |
| `FuncCall` | The call descriptor that rules receive. |
| `RbHelpers` | The visitor's tables and pure helpers: `ope_filter`, `compare_pair`, tuple and slice forms, and the keyword rewriting of calls. |
| `Lowering` | Expression visiting. It is a function of the visitor tables (`Env`) and of the fields that visiting an expression updates (`St`: status, tuple mode, callee flag, argument count). |
| `Statements` | The text and table updates of each statement the model covers, as specification functions. |
| `Visitor` | The `RB` class: its statement visitors are methods that write through the formatter. It also holds `convert_py2cr`, as `Convert`. |

Each method is proved against the matching function in `Statements` or `Lowering`, and the lemmas beside them prove what the translation promises. The functions are the specification of the translation. The methods of `Visitor.RB` are the imperative form of the same visitors. Their `ensures` equate the text they write and the state they leave with those functions, so a property proved of a function holds of the method.

Other conventions of the model:

- **Errors.** An exception ends the conversion, so it is an `Err` result (`ConvertError`, `NotImplemented`, or `RuntimeFault` for a Python runtime error).
- **Status.** The result status is a severity that only ever goes up.
- **Syntax tree.** The parser is not modelled: the syntax tree is given as the `Ast` datatype.
- **Strings.** Strings are sequences of characters.

## Model

| member | source | states |
|---|---|---|
| Formatter.SliceBound | py2cr/formatter.py:59-82 | Python's clamping of a slice end: a bound inside the text is kept, a bound past the end is the end, and a negative bound counts from the end, floored at 0. |
| Formatter.WriteFragmentsText | py2cr/formatter.py:46-57 | The fragments one `write` appends read as the current indentation (when `indent`), then the text, then a newline (when `newline`). |
| Formatter.Formatter.constructor | py2cr/formatter.py:13-18 | A new formatter is at level 0 with the given indentation unit and nothing pending. |
| Formatter.Formatter.Dedent | py2cr/formatter.py:20-25 | The level drops by one with no lower bound. The indentation prefix is recomputed for the new level. Pending text is untouched. |
| Formatter.Formatter.Indent | py2cr/formatter.py:27-32 | The level rises by one. From a non-negative level the prefix grows by exactly one indentation unit. Pending text is untouched. |
| Formatter.Formatter.IndentString | py2cr/formatter.py:34-38 | The prefix is the unit repeated `level` times, and empty at level 0 or below. |
| Formatter.Formatter.Clear | py2cr/formatter.py:40-44 | Drops every fragment written since the last read. Text a sized read left over stays, and so does the level. |
| Formatter.Formatter.Write | py2cr/formatter.py:46-57 | Writing `None` fails with "Convert Error." and writes nothing. Otherwise the pending text grows by exactly the optional prefix, the text and the optional newline. |
| Formatter.Formatter.WriteLine | py2cr/formatter.py:46-57 | A default write: pending text grows by one indented line. |
| Formatter.Formatter.Read | py2cr/formatter.py:59-82 | The text returned followed by what stays pending is exactly what was pending before: nothing is lost or reordered. An unsized read returns everything and empties the formatter. A sized read returns the first `size` characters. A negative size slices only the leftover text. |
| Formatter.AppendFragments | py2cr/formatter.py:46-57 | Appending a write's fragments to the buffer appends their text to the pending text. |
| Formatter.Capitalize | py2cr/formatter.py:85-93 | Same length; the first character upper-cased (ASCII) and no longer a lower-case letter; the rest unchanged. |
| Formatter.CapitalizeIdempotent | py2cr/formatter.py:85-93 | Capitalising twice is capitalising once. |
| FuncCall.SetFuncSplitsAtLastDot | py2cr/__init__.py:67-78 | `set_func` splits at the last dot. Module, dot and name rebuild the callee, and the name holds no dot. A callee without a dot has the empty module and is its own name. |
| FuncCall.SetFunc | py2cr/__init__.py:67-78 | The name part of a callee never holds a dot. |
| FuncCall.SetFuncTwoDots | py2cr/__init__.py:67-78 | `os.path.join` splits into module `os.path` and name `join`. |
| Translator.TableDomain | py2cr/translator.py:9-18 | After registration, the modules in the class table are exactly the modules some rule set claims. The require table has the same keys. |
| Translator.LastRegistrationWins | py2cr/translator.py:9-18 | A rule set that no later rule set overrides is the one registered for its module, with its own require. |
| Translator.TranslatorRegistry.constructor | py2cr/translator.py:9-18 | The registration loop builds exactly the tables that registering the rule sets in order defines. |
| Translator.TranslatorRegistry.FuncLookup | py2cr/translator.py:20-25 | A rule is found if and only if the module is registered and its rule set defines that name. The rule found is the one of that rule set. |
| Translator.TranslatorRegistry.AttrLookup | py2cr/translator.py:27-35 | A rename is found if and only if the module is registered with an attribute map holding the name. The rename is that map's entry. |
| Translator.TranslatorRegistry.RequireLookupOrNone | py2cr/translator.py:37-39 | Unregistered modules give nothing; registered ones give their recorded require. |
| Translator.TranslatorRegistry.RequireLookup | py2cr/translator.py:41-44 | An unregistered module requires itself; a registered one requires what it recorded. |
| Registry.WantsBlock | py2cr/__init__.py:2321-2323 | A rule asks for a block only when the call's first argument is a lambda. |
| Registry.Apply | py2cr/__init__.py:2321-2323 | Only a call with a single list argument can make a rule ask for the `dict([...])` element loop. |
| Registry.OsIsNumpys | py2cr/__init__.py:22-28 | numpy's `Os` class is defined after the `os` rules, so it is the one registered for `os`, and `os` then requires nothing. |
| Registry.OsPathSurvives | py2cr/pyos.py:21-37 | `os.path` keeps the `os` rules module's `OsPath` rules. |
| Registry.RegisteredModules | py2cr/__init__.py:22-28 | Each rules module claims its module (builtins under the empty module, `random`, `typing`, `functools`, `sys`, `six.moves`, `six`, `copy`, `numpy`). numpy requires `num`. |
| Registry.StandardLookups | py2cr/translator.py:20-44 | In the standard registry, `os.walk` is found in numpy's `Os`. `os.getenv` and `os.environ` are then not found. `os.path.join` and `numpy.arange` are found and `numpy.array` is not. `six.PY3` is renamed to `true`. `copy` has no attribute map. |
| Registry.UnregisteredModule | py2cr/translator.py:20-44 | A module no rule set claims has no rules and no recorded require, and it requires itself. |
| PyMain.Random | py2cr/pymain.py:14-20 | `random.random(...)` becomes `Random.rand(...)` with the call's arguments unchanged and in order. |
| PyMain.Filtered | py2cr/pymain.py:28-43 | Every argument is passed through `ope_filter`, position by position. |
| PyMain.Conversion | py2cr/pymain.py:28-75 | `int`, `float` and `str` share a shape. With no argument the result is the literal. With one argument it is the filtered argument with the conversion method. With more, the rule fails on a name it never defined (`NameError`). |
| PyMain.Int | py2cr/pymain.py:28-43 | `int` follows the shared shape, except with two arguments: `%` is then applied to a list, which raises `TypeError`. |
| PyMain.Range | py2cr/pymain.py:78-101 | `range(n)` is `n.times`, and two or three arguments give `PyRange.range(...)`. Every argument is filtered. Any other count raises. |
| PyMain.FirstIsLambda | py2cr/pymain.py:103-148 | Fails exactly on a call without arguments; otherwise true exactly when the first argument is a lambda. |
| PyMain.Reduce | py2cr/pymain.py:103-128 | `reduce(f, xs)` is a method call on `xs` with a block: the lambda itself, or else a block forwarding `*args` to `f`. A third argument becomes the initial value, in parentheses after the method name, in both forms. Fewer than two arguments raise. |
| PyMain.Map | py2cr/pymain.py:131-148 | `map(f, xs)` is `xs.map` with the lambda block, or otherwise `{\|v\| f(v)}`. It succeeds exactly when there are at least two arguments. |
| PyMain.Sequence | py2cr/pymain.py:150-174 | A single string argument is split into characters, and anything else is converted with `.to_a`. |
| PyMain.Tuple | py2cr/pymain.py:150-161 | `tuple()` is `Tuple.new()`, and `tuple(x)` is the sequence form. |
| PyMain.List | py2cr/pymain.py:163-174 | `list()` asks for the typed empty list, and `list(x)` is the sequence form. |
| PyMain.Dict | py2cr/pymain.py:176-198 | `dict()` asks for the typed empty hash. A single list argument makes the visitor render its pair elements. Any other single argument reaches a list the rule never bound (`UnboundLocalError`). More than one argument is the conversion error "dict in argument list Error". |
| PyMain.ConversionExamples | py2cr/pymain.py:28-75 | `int()` is `0` and `int(x)` is `x.to_i`. Likewise `float()` is `0.0` and `float(x)` is `x.to_f`. `str()` is `""` and `str(x)` is `x.to_s`. `float(x, x)` raises `NameError`, and `int(x, x)` raises `TypeError`. |
| PyMain.RangeExamples | py2cr/pymain.py:78-101 | `range(a)`, `range(a, b)` and `range(a, b, c)` translate to `a.times`, `PyRange.range(a, b)` and `PyRange.range(a, b, c)`. |
| PyOs.Walk | py2cr/pyos.py:14-15 | `os.walk(...)` becomes `PyOs.walk(...)` with the arguments unchanged and in order. |
| PyOs.Getenv | py2cr/pyos.py:18-19 | `os.getenv(...)` becomes `PyOs.getenv(...)` with the arguments unchanged and in order. |
| PyOs.FileMethod | py2cr/pyos.py:28-37 | `os.path.dirname`, `basename` and `join` become the same-named `File` class method, with the arguments unchanged and in order. |
| PySix.MovesRange | py2cr/pysix.py:11-14 | `six.moves.range(...)` becomes `PyRange.range(...)` for any number of arguments. |
| PySix.OnReceiver | py2cr/pysix.py:28-35 | The six rules succeed exactly when there is a first argument, and call the method on it. |
| PySix.SixExamples | py2cr/pysix.py:28-35 | `six.itervalues(d)` is `d.values`, `six.iteritems(d)` is `d.to_a`, and other arguments are ignored. `six.moves.range()` is `PyRange.range()`. |
| PySys.SysAttributesQualified | py2cr/pysys.py:5-13 | Every renamed `sys` attribute becomes the same name on `PySys`. |
| PySys.Exit | py2cr/pysys.py:19-22 | `sys.exit(...)` becomes `exit(...)` with the same arguments; `sys.exit()` becomes `exit()`. |
| PyCopy.Copy | py2cr/pycopy.py:10-13 | `copy.copy(x)` is `x.dup`; it raises exactly when there is no argument. |
| PyCopy.CopyIgnoresRest | py2cr/pycopy.py:10-13 | Arguments after the first do not change the result. |
| Numpy.Stub | py2cr/numpy.py:7-8 | `numpy.arange` and numpy's `os.walk` rules return no text. |
| CrystalTypes.VisitName | py2cr/types.py:102-109 | A name in the type table is renamed, and any other name is kept. |
| CrystalTypes.VisitAll | py2cr/types.py:111-113 | Visiting a list of annotations gives one type per annotation. |
| CrystalTypes.CheckSubscriptOf | py2cr/types.py:41-78 | The unwrap check passes exactly for a subscript whose head is a name that equals the expected word, ignoring case. |
| CrystalTypes.UnwrapList | py2cr/types.py:41-50 | Succeeds only for `list[T]` (any case), and then is the visit of `T`. |
| CrystalTypes.UnwrapTuple | py2cr/types.py:52-61 | Succeeds only for `tuple[T]` (any case), and then is the visit of `T`. |
| CrystalTypes.UnwrapDict | py2cr/types.py:63-78 | Succeeds only for `dict[K, V, ...]` (any case). For such a subscript whose first two types convert, the result is exactly those two Crystal types. A non-dict head, or a subscript that is not a tuple, fails. |
| CrystalTypes.UnwrapDictStrInt | py2cr/types.py:63-78 | `Dict[str, int]` unwraps to the key type `String` and the value type `Int32`. |
| CrystalTypes.Constant | py2cr/types.py:142-173 | `constant` succeeds exactly when the node's type name can be computed. A type name in the table gives its Crystal type, with `?` when nilable. Every other node, a name included, gives `_`. |
| CrystalTypes.ConstantTypeName | py2cr/types.py:142-163 | The type name is computed for a constant, a dict, a call, a name, and a tuple whose elements all carry a value. It is missing exactly for a call and a name. |
| CrystalTypes.Visit | py2cr/types.py:82-97 | Names and constants always convert. Every error is an unknown kind or an `AttributeError`, and any kind without a visitor is an unknown kind. |
| CrystalTypes.VisitSubscript | py2cr/types.py:115-132 | A subscript converts only when its head does. `Optional[T]` succeeds exactly when `T` does, and is then `T?`. Errors are only the two annotation kinds. |
| CrystalTypes.NameAnnotation | py2cr/types.py:102-109 | A name annotation is its entry in the type table, or the name itself. |
| CrystalTypes.GenericSubscript | py2cr/types.py:115-132 | `X[T]` is `X(T)`, the head's text and the slice's text in parentheses, for any slice and any head other than `Union` and `Optional`. |
| CrystalTypes.GenericTupleSubscript | py2cr/types.py:115-132 | `X[A, B]` is `X(A, B)`, the argument texts comma-joined. |
| CrystalTypes.ListOfInt | py2cr/types.py:115-132 | `List[int]` is `Array(Int32)`. |
| CrystalTypes.DictOfStrInt | py2cr/types.py:115-132 | `Dict[str, int]` is `Hash(String, Int32)`. |
| CrystalTypes.OptionalAnnotation | py2cr/types.py:115-132 | `Optional[T]` is `T?`. It fails when `T` fails. |
| CrystalTypes.UnionAnnotation | py2cr/types.py:115-132 | `Union[A, B]` is `( A \| B )`. |
| CrystalTypes.UnionOfNameRaises | py2cr/types.py:115-132 | `Union[A]` with a single, non-tuple argument raises. |
| CrystalTypes.UnhandledKindRaises | py2cr/types.py:82-97 | Any annotation kind without a visitor raises. |
| CrystalTypes.QualifiedGeneric | py2cr/types.py:99-100 | An attribute head is reduced to its value: `typing.List[int]` is `typing(Int32)`. |
| CrystalTypes.SimpleVisits | py2cr/types.py:82-140 | Any annotation built from names, constants, attributes, tuples and non-Union subscripts converts without error. |
| CrystalTypes.SimpleVisitsAll | py2cr/types.py:111-113 | The same holds for every element of a tuple of such annotations. |
| CrystalTypes.UnwrapListCase | py2cr/types.py:41-50 | `List[T]` and `list[T]` unwrap alike. |
| CrystalTypes.ConstantNilable | py2cr/types.py:142-173 | The nilable form succeeds exactly when the plain form does, and adds `?` except to the unknown type `_`. |
| CrystalTypes.ConstantExamples | py2cr/types.py:142-173 | `3` is typed `Int32?` or `Int32`, `"a"` is `String?` and `{}` is `Hash?`. A name and `None` are `_`. A list raises. |
| RbHelpers.Raise | py2cr/__init__.py:306-308 | `set_result` keeps the larger status: the result is one of the two and at least both. |
| RbHelpers.OpeFilter | py2cr/__init__.py:2613-2628 | Text that contains an operator is wrapped in parentheses, and other text is kept. |
| RbHelpers.OpeFilterShape | py2cr/__init__.py:2613-2628 | Filtering keeps whether the text has an operator, and the original text sits inside the parentheses. |
| RbHelpers.OpeFilterExamples | py2cr/__init__.py:2613-2628 | `a` stays `a`; `a + b` and `x % 2` are parenthesised. |
| RbHelpers.ComparePairMainIdiom | py2cr/__init__.py:1753-1780 | A `__name__`/`"__main__"` pair, in either order, compares `__FILE__` with `PROGRAM_NAME` under `==` or `!=`. |
| RbHelpers.SliceSubscriptShape | py2cr/__init__.py:2694-2745 | A slice is the target indexed by its range. Without a step that is all; with a step it is followed by `.each_slice(step).map(&.first)`. |
| RbHelpers.ComparePairIn | py2cr/__init__.py:1753-1780 | `a in b` is `b.py_in?(a)` and `a not in b` is its negation. |
| RbHelpers.Parenthesised | py2cr/__init__.py:1781-1792 | Every pair of a chain is parenthesised, in order. |
| RbHelpers.Pairs | py2cr/__init__.py:1781-1792 | The first pair compares the left operand with the first comparator. Each later pair compares the previous comparator with the next. |
| RbHelpers.CompareChain | py2cr/__init__.py:1781-1792 | The loop produces the `&&` chain of the parenthesised pairs. |
| RbHelpers.ChainOfTwo | py2cr/__init__.py:1781-1792 | A chain of two pairs is `(p) && (q)`. |
| RbHelpers.ChainTwo | py2cr/__init__.py:1747-1792 | `a < b < c` is `(a < b) && (b < c)`. |
| RbHelpers.TupleText | py2cr/__init__.py:2629-2647 | The empty tuple is `Tuple.new`. Otherwise the active tuple mode decides: `()` gives parentheses, `[]` gives braces, the bare mode gives bare text, and `=>` gives a `k => v` pair. Any other mode raises "tuples in argument list Error". |
| RbHelpers.SliceForms | py2cr/__init__.py:2694-2745 | `x[a:]` is `x[a..-1]`, `x[:b]` is `x[0...b]` and `x[a:b]` is `x[a...b]`. A step adds `each_slice(step).map(&.first)`. |
| RbHelpers.SliceExample | py2cr/__init__.py:2722-2745 | `x[3:]` is `x[3..-1]`. |
| RbHelpers.DummyNamesDistinct | py2cr/__init__.py:412-415 | Different counters give different fresh names. |
| RbHelpers.Rewritten | py2cr/__init__.py:2270-2280 | Rewriting keeps the number of arguments. |
| RbHelpers.RewriteKeywords | py2cr/__init__.py:2270-2280 | The in-place loop over the arguments computes the rewritten list. |
| RbHelpers.RewriteExample | py2cr/__init__.py:2230-2280 | For `def foo(a, b=3)`, the call `foo(x, 5)` passes `b: 5`. A call that leaves `b` out is unchanged. |
| RbHelpers.RewrittenPositions | py2cr/__init__.py:2270-2280 | Each argument is either kept, or prefixed by the name of the parameter with a default at its position, and only such a position is prefixed. |
| Lowering.ConstantText | py2cr/__init__.py:1843-1877 | Only a bytes literal is an error. An integer is written in decimal with its sign, and a float or complex literal as written. |
| Lowering.StringConstantText | py2cr/__init__.py:1880-1891 | A string constant is `:s` as a symbol and `"s"` otherwise, with its characters kept. |
| Lowering.Warn | py2cr/__init__.py:296-299 | In warning mode the status rises to at least a warning. In other modes nothing changes. |
| Lowering.DefaultsFor | py2cr/__init__.py:2235-2253 | The table used for keyword rewriting never contains a `*args` slot. A dotless callee is never static, and uses its top-level table exactly when that table has no `*args`. |
| Lowering.EmptyListText | py2cr/__init__.py:2768-2780 | Under an annotation, an empty list is `[] of T` for the unwrapped `T`, failing exactly when unwrapping fails. Without one it is `[]` with a warning. |
| Lowering.EmptyHashText | py2cr/__init__.py:2781-2794 | Under an annotation, an empty dict is `{} of K => V`, failing exactly when unwrapping fails. Without one it is `{}` with a warning. |
| Lowering.MiddleForm | py2cr/__init__.py:2255-2262 | A function turned into a method is `a.m` with one argument and `a.m b` with more; it fails with none. |
| Lowering.Lower | py2cr/__init__.py:432-455 | In silent mode, every node other than a name or attribute renders as the empty text with the state unchanged. |
| Lowering.LowerAll | py2cr/__init__.py:432-455 | One text per node. |
| Lowering.LowerDict | py2cr/__init__.py:2648-2667 | A dict literal's status never goes down. |
| Lowering.SuperRef | py2cr/__init__.py:2433-2612 | Rendering `super().attr` changes no state. |
| Lowering.GenericAttr | py2cr/__init__.py:2433-2612 | Rendering a generic attribute only raises the status. |
| Lowering.NameAttr | py2cr/__init__.py:2433-2612 | Rendering an attribute of a name only raises the status. |
| Lowering.LowerAttribute | py2cr/__init__.py:2433-2612 | Rendering an attribute only raises the status. |
| Lowering.LowerSliceParts | py2cr/__init__.py:2694-2714 | Each slice part is rendered exactly when it is present. |
| Lowering.LowerSubscript | py2cr/__init__.py:2722-2745 | Rendering a subscript only raises the status. |
| Lowering.LowerCompare | py2cr/__init__.py:1747-1792 | A comparison whose operators and comparators differ in number fails. |
| Lowering.LowerKeywords | py2cr/__init__.py:2129-2138 | One text per keyword argument. |
| Lowering.LowerLambdaBlock | py2cr/__init__.py:1687-1709 | Rendering a lambda as a block only raises the status. |
| Lowering.LowerDictOfList | py2cr/__init__.py:176-198 | The element loop of `dict([...])` gives one text per element and leaves the tuple mode at `[]`. |
| Lowering.ApplyRule | py2cr/__init__.py:2321-2323 | Running a rule only raises the status. |
| Lowering.LowerCallTail | py2cr/__init__.py:2314-2413 | The rest of a call only raises the status. |
| Lowering.LowerCall | py2cr/__init__.py:2139-2413 | A call only raises the status. |
| Lowering.CallWithCallee | py2cr/__init__.py:2163-2313 | A call with a rendered callee only raises the status. |
| Lowering.SimpleLowers | py2cr/__init__.py:1808-1879 | A name no table renames renders as itself, and an integer constant as its decimal text. Neither changes any state. |
| Lowering.SimpleArgs | py2cr/__init__.py:432-455 | A list of such names and integer constants renders text by text, with no state change. |
| Lowering.CallSteps | py2cr/__init__.py:2143-2161 | A call first renders its arguments. It then renders its callee with the callee flag set and the argument count recorded. The flag is cleared afterwards. |
| Lowering.CallIsLowerCall | py2cr/__init__.py:432-455 | Outside silent mode a call node is visited by `visit_Call`. |
| Lowering.PlainCallHead | py2cr/__init__.py:2139-2161 | A named callee without keywords reaches the callee stage with its own name and the count of its arguments. |
| Lowering.MiddleCall | py2cr/__init__.py:2255-2262 | A callee in the function-to-method table renders in method form. |
| Lowering.PlainCalleeNotRuled | py2cr/__init__.py:2314-2323 | A plain name no rule claims has the empty module and finds no rule. |
| Lowering.PlainCallBody | py2cr/__init__.py:2235-2282 | A plain top-level call drops nothing, and rewrites its arguments with the callee's table when that table has no `*args`. |
| Lowering.PlainPositional | py2cr/__init__.py:2264-2280 | The positional arguments of a plain call match the rewriting rule. |
| Lowering.PlainTail | py2cr/__init__.py:2325-2413 | Without a rule, a plain call is the fallback chain of forms: min/max, the reverse-method table, `join`, a lambda call, a proc call, or an ordinary call. |
| Lowering.PlainCall | py2cr/__init__.py:2139-2413 | End to end, a plain top-level call renders as the fallback form of its rewritten arguments. |
| Lowering.RuledTail | py2cr/__init__.py:2314-2323 | A callee a rule claims is handed to that rule. |
| Lowering.RuledNoArgCall | py2cr/__init__.py:2139-2323 | End to end, a ruled call without arguments is handed to its rule. |
| Lowering.RuleOutcome | py2cr/__init__.py:2314-2323 | A rule's text is the call's text. A request for an empty list or hash is carried out by `empty_list` or `empty_hash`. |
| Lowering.OneName | py2cr/__init__.py:1808-1842 | A single name no table renames renders as itself. |
| Lowering.TwoNodes | py2cr/__init__.py:432-455 | Two unrenamed names or integer constants render in order. |
| Lowering.OneNode | py2cr/__init__.py:432-455 | One unrenamed name or integer constant renders as its text. |
| Lowering.AllTables | py2cr/__init__.py:165-182 | `all` is in the function-to-method table as `py_all?`. |
| Lowering.AllCall | py2cr/__init__.py:2255-2262 | `all(l)` is `l.py_all?`. |
| Lowering.IsInstanceTables | py2cr/__init__.py:165-182 | `isinstance` is in the function-to-method table as `is_a?`. |
| Lowering.IsInstanceCall | py2cr/__init__.py:2255-2262 | `isinstance(a, b)` is `a.is_a? b`. |
| Lowering.MaxTables | py2cr/__init__.py:2330-2341 | `max` takes the min/max form, with its arguments in braces. |
| Lowering.MaxCall | py2cr/__init__.py:2330-2341 | `max(a, b)` is `{a, b}.max`. |
| Lowering.LenTables | py2cr/__init__.py:2344-2354 | `len` is in the reverse-method table as `size`. |
| Lowering.LenCall | py2cr/__init__.py:2344-2354 | `len(x)` is `x.size`; an operand with an operator is parenthesised. |
| Lowering.KeywordTables | py2cr/__init__.py:2270-2280 | With the table `[none, b]`, the arguments `x, 5` become `x, b: 5`, and the call is `f(x, b: 5)`. |
| Lowering.KeywordCall | py2cr/__init__.py:2230-2280 | After `def f(a, b=3)`, the call `f(x, 5)` is `f(x, b: 5)`. |
| Lowering.EmptyListTables | py2cr/pymain.py:163-174 | The builtin `list` rule, called without arguments, asks for the empty list. |
| Lowering.EmptyListCall | py2cr/__init__.py:2768-2780 | `list()` is the typed empty list of `empty_list`. |
| Lowering.EmptyDictTables | py2cr/pymain.py:176-198 | The builtin `dict` rule, called without arguments, asks for the empty hash. |
| Lowering.EmptyDictCall | py2cr/__init__.py:2781-2794 | `dict()` is the typed empty hash of `empty_hash`. |
| Lowering.BoundText | py2cr/__init__.py:2694-2714 | A simple slice bound renders exactly when it is present. |
| Lowering.SimpleSliceParts | py2cr/__init__.py:2694-2714 | Simple slice bounds render as their texts. |
| Lowering.SliceOfName | py2cr/__init__.py:2722-2745 | A slice of a name is the Crystal range form of its bounds. |
| Lowering.XSliceTables | py2cr/__init__.py:2694-2745 | The parts of `x[3:]` render as `x` and `3`. |
| Lowering.XSlice | py2cr/__init__.py:2795-2804 | `x[3:]` is `x[3..-1]`, as the docstring of `convert_py2cr` shows. |
| Lowering.CompareOfSimple | py2cr/__init__.py:1747-1792 | A comparison of simple operands is the chain of its pairs. |
| Lowering.TupleOfSimple | py2cr/__init__.py:2629-2647 | A tuple of simple elements is the tuple form of its texts in the active mode, and fails exactly when that form fails. |
| Lowering.UnsupportedNode | py2cr/__init__.py:432-447 | An expression without a visitor is an error in stop mode, empty text with a warning in warning mode, and empty text in silent mode. |
| Lowering.PairTexts | py2cr/__init__.py:176-198 | One `k => v` text per pair, in order. |
| Lowering.PairTupleText | py2cr/__init__.py:2629-2647 | A pair in `=>` mode is `k => v`. |
| Lowering.PairLowers | py2cr/__init__.py:2629-2647 | A pair of simple nodes renders as `k => v` in `=>` mode. |
| Lowering.DictOfPairs | py2cr/pymain.py:176-198 | `dict([(k, v), ...])` renders `k => v` for each pair, in order, and leaves the tuple mode at `[]`. |
| Lowering.NameAttribute | py2cr/__init__.py:2433-2612 | Outside a class, `x.attr` on a name that is not `self`, a class, or a module renaming `attr` is `x.` followed by `attr` after the method table and the argument-form tables. |
| Lowering.AttributeOfAttribute | py2cr/__init__.py:2433-2612 | An attribute of an attribute is the inner text, parenthesised if it looks arithmetic, then a dot and the renamed attribute. The state is that of the inner visit. |
| Lowering.SelfField | py2cr/__init__.py:2517-2550 | Inside a class, `self.a` is the instance variable `@a` when `a` is neither a method of the class nor inherited from a recorded base. |
| Lowering.SuperOfMethod | py2cr/__init__.py:2490-2516 | `super().m` inside the method `m` is `super`. |
| Lowering.SixTables | py2cr/pysix.py:16-21 | `six` is not renamed by the name tables, and the `six` rule set renames `PY3` to `true`. |
| Lowering.SixPY3 | py2cr/__init__.py:2438-2462 | `six.PY3` is `true`, through the rule set's attribute rename, unless `six` has been aliased. |
| Lowering.RuledCall | py2cr/__init__.py:2139-2323 | A call outside a class, whose callee is claimed by a rule for its module and name, is handed to that rule with the rendered arguments. This holds when the callee is not a class, not a function-to-method name and has no defaults table. |
| Lowering.BlockRuleOutcome | py2cr/__init__.py:1705-1709 | A rule that takes a lambda block receives the lambda rendered as `{ \|params\| body }`, and its text is the call's text. |
| Lowering.SysNames | py2cr/pysys.py:15-22 | `sys` and `exit` hold no dot, and `sys` holds no operator. |
| Lowering.SysTexts | py2cr/__init__.py:2139-2323 | `sys` is not renamed, `exit` is renamed by no attribute table, `sys.exit` is no function-to-method name, and it splits into `sys` and `exit`. |
| Lowering.SysUnrenamed | py2cr/__init__.py:97-162 | No name table renames `sys`, and `ope_filter` leaves it alone. |
| Lowering.ExitUnrenamed | py2cr/__init__.py:211-243 | No attribute table renames `exit`. |
| Lowering.SysExitNotMiddle | py2cr/__init__.py:165-182 | `sys.exit` is not in the function-to-method table. |
| Lowering.SysExitSplits | py2cr/__init__.py:67-76 | `set_func` splits `sys.exit` into the module `sys` and the name `exit`. |
| Lowering.SysLookups | py2cr/translator.py:20-35 | The `sys` rule set renames no `exit` attribute and holds the `exit` rule. |
| Lowering.SysExitRule | py2cr/pysys.py:19-22 | The `exit` rule takes no block, and with no arguments it gives `exit()`. |
| Lowering.SysExitCallee | py2cr/__init__.py:2433-2612 | As a callee with no arguments, `sys.exit` renders as `sys.exit`. |
| Lowering.SysExitCall | py2cr/pysys.py:19-22 | End to end, `sys.exit()` outside a class is `exit()`. |
| Lowering.OsNames | py2cr/pyos.py:21-37 | `os`, `path` and `join` hold no dot, and `os` and `os.path` hold no operator. |
| Lowering.OsUnrenamed | py2cr/__init__.py:97-162 | No name table renames `os`, and `ope_filter` leaves `os` and `os.path` alone. |
| Lowering.PathJoinUnrenamed | py2cr/__init__.py:211-243 | No attribute table renames `path` or `join` in a call with arguments. |
| Lowering.OsPathJoinNotMiddle | py2cr/__init__.py:165-182 | `os.path.join` is not in the function-to-method table. |
| Lowering.OsPathJoinSplits | py2cr/__init__.py:67-76 | `set_func` splits `os.path.join` into `os.path` and `join`. With no class named `os`, it has no defaults table. |
| Lowering.OsLookups | py2cr/translator.py:20-35 | The rule set that claims `os` last renames no `path` attribute, and `os.path` holds the `join` rule. |
| Lowering.OsPathJoinTables | py2cr/pyos.py:21-37 | All of the table facts above for `os.path.join`, together. |
| Lowering.OsPathJoinRule | py2cr/pyos.py:35-37 | The `join` rule of `os.path` takes no block, and gives `File.join(a, b)`. |
| Lowering.OsPathCallee | py2cr/__init__.py:2433-2612 | As a callee with two arguments, `os.path.join` renders as `os.path.join`. |
| Lowering.OsPathJoinCall | py2cr/pyos.py:35-37 | End to end, `os.path.join(a, b)` outside a class is `File.join(a, b)`. |
| Lowering.LambdaOfSimple | py2cr/__init__.py:1687-1709 | A lambda with a simple body is `->(params) { body }` as an expression and `{ \|params\| body }` as a block. Neither changes the state. |
| Lowering.TwoLowered | py2cr/__init__.py:432-455 | Two nodes whose visits leave the state alone render in order. |
| Lowering.MapName | py2cr/__init__.py:97-182 | `map` is renamed by no table, is no function-to-method name, and has the empty module. |
| Lowering.MapLookup | py2cr/pymain.py:131-149 | The builtins rule set holds the `map` rule. |
| Lowering.MapTables | py2cr/__init__.py:2139-2323 | All of the table facts for a call of `map` outside a class, together. |
| Lowering.MapRule | py2cr/pymain.py:131-149 | `map` with a lambda asks for a block, and gives `xs.map` followed by the block. |
| Lowering.MapArgs | py2cr/__init__.py:2139-2161 | The arguments of `map(lambda ..., xs)` render as the lambda expression and `xs`. |
| Lowering.MapCallHead | py2cr/__init__.py:2139-2323 | A call of `map` outside a class is handed to the `map` rule. |
| Lowering.MapApply | py2cr/pymain.py:131-149 | The `map` rule, given a lambda first, renders the lambda as a block after `xs.map`. |
| Lowering.MapLambdaCall | py2cr/pymain.py:131-149 | End to end, `map(lambda params: body, xs)` is `xs.map { \|params\| body }`. |
| Lowering.IdentityLambdaTables | py2cr/__init__.py:1687-1709 | The parameter list `x` renders as `x`. |
| Lowering.MapIdentityCall | py2cr/pymain.py:131-149 | `map(lambda x: x, xs)` is `xs.map { \|x\| x }`. |
| Lowering.EntryTexts | py2cr/__init__.py:2648-2667 | One entry per key, each the entry text of its key and value. |
| Lowering.DictEntryStep | py2cr/__init__.py:2648-2667 | One step of the dict entry loop renders the key and the value, and appends their entry. |
| Lowering.DictLoopEnd | py2cr/__init__.py:2662-2663 | Once every entry is visited, a non-empty list of entries is joined by commas inside braces. |
| Lowering.DictLoop | py2cr/__init__.py:2648-2667 | The dict entry loop, from any entry on, gives the accumulated entries, then the rest in order, joined by commas inside braces. |
| Lowering.DictDisplay | py2cr/__init__.py:2648-2667 | A dict literal of simple keys and values is its entries in order, inside braces: `"k" => v` for a name key, `k => v` otherwise. The state is unchanged. With no entries it is the typed empty hash of `empty_hash`. |
| Lowering.NameKeyEntry | py2cr/__init__.py:2653-2656 | The entry of `{k: v}` is `"k" => v`. |
| Lowering.IntKeyEntry | py2cr/__init__.py:2659-2660 | The entry of `{1: v}` is `1 => v`. |
| Lowering.NameKeyDict | py2cr/__init__.py:2648-2667 | `{k: v}` is `{"k" => v}`: a name key is quoted. |
| Lowering.IntKeyDict | py2cr/__init__.py:2648-2667 | `{1: v}` is `{1 => v}`: any other key is written as it renders. |
| FuncCall.SetFuncOneDot | py2cr/__init__.py:67-76 | A one-dot callee splits into the part before the dot and the part after it. |
| Strings.SplitFirstAfter | py2cr/__init__.py:2235-2253 | Splitting once at the first separator, after a head without one, gives that head and the rest. |
| Statements.ForLinesShape | py2cr/__init__.py:1052-1079 | A `for` starts with the flag line, the `py_each` block head and the body. It ends with the flag step, `end` and the `else` part. |
| Statements.WhileLinesShape | py2cr/__init__.py:1086-1111 | A `while` starts with its head and the body, and ends with `end` and the `else` part. |
| Statements.ForElseWrapsPlainLoop | py2cr/__init__.py:1052-1079 | A `for` with `else` is a flag set false, the plain loop with a step that sets the flag on the last element, then the `else` body guarded by the flag. |
| Statements.WhileElseWrapsEndlessLoop | py2cr/__init__.py:1086-1111 | A `while` with `else` is a flag set false, then a `while true` loop that sets the flag and breaks when the test fails. The `else` body follows, guarded by the flag. |
| Statements.PositionalSlotsRightAligned | py2cr/__init__.py:536-561 | Defaults align with the last parameters. Exactly the parameters before them have no default slot, and each of the rest is recorded under its name. |
| Statements.TableUsableIffNoVararg | py2cr/__init__.py:600-622 | A function's table is used for keyword rewriting exactly when it has no `*args`. |
| Statements.LowerNone | py2cr/__init__.py:432-455 | Visiting a missing default succeeds only in silent mode, as empty text. |
| Statements.RenderPositional | py2cr/__init__.py:545-561 | One parameter text per positional parameter that has a default slot, so the two lists are paired. |
| Statements.RenderKwOnly | py2cr/__init__.py:606-610 | One text per keyword-only parameter paired with its default. |
| Statements.StarParam | py2cr/__init__.py:600-616 | `*args` and `**kwargs` add a text exactly when present. |
| Statements.SelfDropped | py2cr/__init__.py:580-585 | An unchecked list is kept. A checked list passes exactly when it starts with a bare `self`, which is then dropped. |
| Statements.DefaultsTableSplit | py2cr/__init__.py:536-622 | A function's table is its positional slots, less `self` when checked, then `*args`, the keyword-only names and `**kwargs`. |
| Statements.ParamTextIsSelf | py2cr/__init__.py:547-561 | A rendered parameter is exactly `self` only for a bare `self` with no annotation or default. |
| Statements.FirstDefault | py2cr/__init__.py:536 | The first parameter has no default exactly when there are fewer defaults than parameters. |
| Statements.SelfCheckRejects | py2cr/__init__.py:580-583 | A checked method whose first parameter is not a bare `self` raises. |
| Statements.SelfCheckDrops | py2cr/__init__.py:580-585 | For a bare `self` first parameter, checking succeeds exactly when not checking does. It drops exactly the first text and the first slot. |
| Statements.ScanDecorator | py2cr/__init__.py:501-529 | One decorator makes the method static exactly when it is `classmethod` or `staticmethod`, or the method was static already. |
| Statements.ScanAllStatic | py2cr/__init__.py:501-531 | After all decorators, the method is static exactly when one of them is `classmethod` or `staticmethod`. |
| Statements.MethodIsChecked | py2cr/__init__.py:576-585 | A top-level method of a class without a static decorator is checked for `self`. |
| Statements.MethodWithoutSelfRejected | py2cr/__init__.py:576-585 | Such a method without a bare `self` first parameter fails "The first argument must be 'self'". |
| Statements.DefaultsExample | py2cr/__init__.py:536-561 | `def foo(a, b=3)` records `[none, b]`, so `foo(x, 5)` passes `b: 5`. |
| Statements.HeaderTable | py2cr/__init__.py:536-622 | A header's table is the defaults table of its parameters, less `self` when checked. Its name follows the renaming rules. |
| Statements.HeaderLine | py2cr/__init__.py:619-658 | The header line fails exactly for a plain function whose return annotation fails. |
| Statements.HeaderLineShape | py2cr/__init__.py:619-658 | A setter or plain function header starts `def name`, and an annotated one ends `) : type`. A closure starts `name = ->`. |
| Statements.FunctionHeader | py2cr/__init__.py:495-658 | A header succeeds only when the signature does. Its flags, parameters, slots, state and name are the signature's, and its line is the header line of them. |
| Statements.TopLevelTableUsed | py2cr/__init__.py:2235-2253 | After declaring a top-level function, calls to it use its table exactly when it has no `*args`. |
| Statements.RemoveFirst | py2cr/__init__.py:708-711 | `remove` of a present base shortens the list by one and of an absent base keeps it. It never adds a base. |
| Statements.AddNewSpec | py2cr/__init__.py:729-731 | Adding the new names keeps the list duplicate-free, holds exactly the old and new names, and extends the old list. |
| Statements.RecordedMembers | py2cr/__init__.py:724-726 | Visiting an ancestor appends it to its own recorded list, in place, and leaves the other classes alone. |
| Statements.AddNew | py2cr/__init__.py:729-731 | Adding names only extends the list. |
| Statements.Linearise | py2cr/__init__.py:716-731 | The ancestor list extends the starting list. The table keeps its keys, and the classes that are not bases keep their entries. |
| Statements.LineariseDistinct | py2cr/__init__.py:716-731 | The ancestor list of a class has no duplicates. |
| Statements.LineariseMembers | py2cr/__init__.py:716-731 | A name is an ancestor exactly when it is a base or a recorded ancestor of a base. |
| Statements.BaseEntryGrows | py2cr/__init__.py:724-726 | A known base's recorded list gains the base itself. An unknown base changes no table. |
| Statements.SingleBaseOrder | py2cr/__init__.py:716-731 | With one base, the ancestors are the base's ancestors followed by the base. |
| Statements.AddNewOfDistinct | py2cr/__init__.py:729-731 | New names that are distinct and fresh are appended in order. |
| Statements.ChainExample | py2cr/__init__.py:716-736 | `class B(A)` records `[A]`. A class of base `B` then records `[A, B]`, and `B`'s own list also grows to `[A, B]`. |
| Statements.UpperFirst | py2cr/__init__.py:739-750 | Upper-casing the first letter fails on the empty name and otherwise is `capitalize`. |
| Statements.UpperAll | py2cr/__init__.py:739 | Every base is capitalised, position by position. |
| Statements.SuperclassIsLast | py2cr/__init__.py:754-760 | With bases, the header names the last one as the superclass. With more than one, the others follow as a `#` comment. |
| Statements.ClassLine | py2cr/__init__.py:754-760 | A class without bases is `class Name`. |
| Statements.ClassHeaderAncestors | py2cr/__init__.py:716-736 | A class header records a duplicate-free ancestor list for the class. |
| Statements.MethodsPartitioned | py2cr/__init__.py:768-775 | Every method in a class body is either a class function or an instance function. |
| Statements.ImportAliases | py2cr/__init__.py:1283-1310 | `import numpy as np` makes `np` stand for `numpy`. `import os as o` records no alias, because `os` has no require. |
| Statements.ImportPath | py2cr/__init__.py:1283-1287 | The path is as long as the module name. A module without a require keeps its name. |
| Statements.ImportPathChars | py2cr/__init__.py:1283-1287 | A module with a require has its dots turned into slashes, character by character. |
| Statements.RequireOf | py2cr/__init__.py:1318-1324 | A require is never empty. A path without its own require entry is required as itself, unless the name is empty. |
| Statements.ImportRequires | py2cr/__init__.py:1318-1324 | `import numpy` requires `num` and `import os` requires nothing. An unregistered module requires itself. |
| Statements.StripPrefix | py2cr/__init__.py:1564-1566 | Removing a leading prefix leaves what follows it, and text without the prefix is unchanged. |
| Statements.CommentLines | py2cr/__init__.py:1562-1567 | Comment text is empty exactly when there are no parts. |
| Statements.CommentLinesEnds | py2cr/__init__.py:1562-1567 | Comment text starts with the first part's line and ends with the last part's line. |
| Statements.PlainLines | py2cr/__init__.py:1552-1578 | `pass`, `break` and `continue` always succeed and keep the state. An expression or a `return` with a value succeeds exactly when the value renders. The status never drops. |
| Statements.BodyLines | py2cr/__init__.py:457-487 | A body of such statements fails when its first statement fails. The status never drops. |
| Statements.BodyLinesAdvance | py2cr/__init__.py:457-487 | One statement of the loop over a body either fails the whole body or appends its text, leaving the rest of the body to do. |
| Statements.BodyLinesCons | py2cr/__init__.py:457-487 | A body led by a statement that succeeds is that statement's text, then the rest of the body visited from the state it leaves. |
| Statements.FixedPlain | py2cr/__init__.py:1570-1577 | `pass`, `break`, `continue` and a bare `return` each write one fixed line and keep the state. |
| Statements.FixedThen | py2cr/__init__.py:457-487 | Such a statement in front of a body that keeps the state adds just its line. |
| Statements.SimplePlain | py2cr/__init__.py:1552-1569 | A name on its own line is written as that line, and `return name` as `return` and the name. The state is kept. |
| Statements.KeywordLines | py2cr/__init__.py:1570-1577 | `pass`, `continue`, `return` give the `# pass`, `next` and `return` lines at any level, and keep the state. |
| Statements.KeywordLinesAtZero | py2cr/__init__.py:1570-1577 | At level 0 that body is exactly `# pass`, `next`, `return`, one per line. |
| Statements.ExprThenReturn | py2cr/__init__.py:1552-1569 | A call statement followed by `return x` gives the call's line, then `return x`. |
| Statements.DocstringExample | py2cr/__init__.py:1557-1567 | A top-level docstring becomes one `#` comment line per line. |
| Statements.CommentLineAtZero | py2cr/__init__.py:1562-1567 | At level 0 a docstring line is copied after `# ` unchanged. |
| Visitor.RB.constructor | py2cr/__init__.py:313-410 | A new visitor is in stop mode with an ok status and fresh-name counter 0. It has empty tables, the `[]` tuple mode, a two-space formatter at level 0 and nothing written. |
| Visitor.RB.SetMode | py2cr/__init__.py:302-303 | Only the mode changes, to the mode member the caller means. |
| Visitor.RB.SetResult | py2cr/__init__.py:306-308 | The status becomes the larger of the old status and the new one. |
| Visitor.RB.GetResult | py2cr/__init__.py:310-311 | Returns the current status. |
| Visitor.RB.MaybeWarn | py2cr/__init__.py:296-299 | The status rises to a warning in warning mode only. |
| Visitor.RB.NewDummy | py2cr/__init__.py:412-415 | Each fresh name differs from every name handed out before. |
| Visitor.RB.Emit | py2cr/formatter.py:46-57 | The text becomes one line at the current indentation, appended after what was written. |
| Visitor.RB.VisitExpr | py2cr/__init__.py:432-455 | The method visit of an expression is the expression function, and the state follows it. |
| Visitor.RB.ScanOne | py2cr/__init__.py:503-529 | Scanning one decorator is its specification function. |
| Visitor.RB.ScanDecorators | py2cr/__init__.py:501-529 | The decorator loop is its specification function. |
| Visitor.RB.Decorate | py2cr/__init__.py:501-531 | Decorator handling, warning included, is its specification function. |
| Visitor.RB.VisitDefault | py2cr/__init__.py:555-560 | A positional default is visited as specified. |
| Visitor.RB.VisitKwDefault | py2cr/__init__.py:607-610 | A keyword-only default is visited as specified. |
| Visitor.RB.RenderArg | py2cr/__init__.py:547-561 | One parameter is rendered as specified. |
| Visitor.RB.RenderArgs | py2cr/__init__.py:545-561 | The parameter loop renders the specified texts and records the defaults slots. |
| Visitor.RB.RenderKwArgs | py2cr/__init__.py:606-610 | The keyword-only loop renders the specified texts and slots. |
| Visitor.RB.StarArg | py2cr/__init__.py:600-616 | `*args` and `**kwargs` are rendered as specified. |
| Visitor.RB.RestArgs | py2cr/__init__.py:600-616 | The parameters after the positional ones are rendered with their slots. |
| Visitor.RB.Params | py2cr/__init__.py:536-618 | All parameters are rendered as specified, with the `self` check. |
| Visitor.RB.Sign | py2cr/__init__.py:495-618 | A function's signature is its specification, in the tables it is visited with. |
| Visitor.RB.Declare | py2cr/__init__.py:619-658 | Writes exactly the header line and files the function's table. On an error, nothing is written. |
| Visitor.RB.DefineFunction | py2cr/__init__.py:495-662 | The header part of a function definition is its specification function. Exactly its line is written. |
| Visitor.RB.Nested | py2cr/__init__.py:664-667 | A body only appends text. |
| Visitor.RB.Rebind | py2cr/__init__.py:670-685 | Given whether the visitor is still inside a class, a function outside any class with one name decorator is rebound through `method(:f)` and its name joins the scope; inside a class the scope is reset. |
| Visitor.RB.FunctionBody | py2cr/__init__.py:664-688 | The body is written one level deeper and closed with `end`. The class test of the rebinding is made after the body, so a class defined inside it counts as leaving the class. A function still inside a class after its body resets the scope. The function is popped and the argument list reset. |
| Visitor.RB.VisitFunctionDef | py2cr/__init__.py:490-688 | A function definition succeeds only when its header does. It then writes the header line, a body, `end` and the rebinding line chosen by the class state after the body. A function still inside a class after its body resets the scope. |
| Visitor.RB.VisitAll | py2cr/__init__.py:706 | The bases loop is the list function. |
| Visitor.RB.LineariseBases | py2cr/__init__.py:716-731 | The ancestor loop computes the linearisation and touches only the ancestor table. |
| Visitor.RB.VisitBases | py2cr/__init__.py:696-736 | The bases are visited, cleaned up and linearised, as specified. |
| Visitor.RB.DeclareClass | py2cr/__init__.py:739-763 | Writes exactly the class header line one level out and enters the class body. |
| Visitor.RB.DefineClass | py2cr/__init__.py:691-763 | The class header is its specification. The per-class tables are reset. |
| Visitor.RB.Prescan | py2cr/__init__.py:768-789 | Computes each method's kind first. |
| Visitor.RB.WriteWrapper | py2cr/__init__.py:778-784 | Writes the instance wrapper of one static method. |
| Visitor.RB.WriteWrappers | py2cr/__init__.py:776-784 | Writes one wrapper per static method, in order. |
| Visitor.RB.FileArgsTables | py2cr/__init__.py:823-831 | Files each method's defaults table under its kind, failing as a missing key does. |
| Visitor.RB.OpenClassBody | py2cr/__init__.py:768-789 | Writes the wrappers and splits the methods into class and instance functions. |
| Visitor.RB.CloseClassBody | py2cr/__init__.py:823-856 | Files the tables under the class, leaves the class, writes `end` one level out and resets the lists. |
| Visitor.RB.ClassBody | py2cr/__init__.py:768-856 | The wrappers, then the body, then `end`. |
| Visitor.RB.VisitClassDef | py2cr/__init__.py:691-856 | A class succeeds only when its header does. It then writes the header, the static wrappers, a body and `end`, and its tables are filed. |
| Visitor.RB.ForHeader | py2cr/__init__.py:1042-1050 | The target is rendered in `()` tuple mode and the iterable in `[]` mode, as specified. |
| Visitor.RB.WriteFlagInit | py2cr/__init__.py:1052-1054 | Writes the `flag = false` line when there is an `else`. |
| Visitor.RB.WriteForFlag | py2cr/__init__.py:1062-1067 | Writes the last-element check that sets the flag. |
| Visitor.RB.ElseBranch | py2cr/__init__.py:1072-1078 | Writes the flag-guarded `else` body. Nothing is written when there is none. |
| Visitor.RB.ForLoop | py2cr/__init__.py:1052-1079 | Writes exactly the loop lines: the flag, the `py_each` block, the body, the flag step and `end`, then the `else`. |
| Visitor.RB.VisitFor | py2cr/__init__.py:1030-1079 | A target that is not a name, tuple or list raises "Argument decomposition in 'for' loop is not supported" with an error status. Otherwise the loop lines are written with a fresh flag. |
| Visitor.RB.WhileHeader | py2cr/__init__.py:1086-1096 | The test is rendered once, and the plain or flagged loop head is written. |
| Visitor.RB.WhileLoop | py2cr/__init__.py:1098-1111 | Writes the body, `end` and the `else`. |
| Visitor.RB.VisitWhile | py2cr/__init__.py:1081-1111 | Succeeds only when the test renders. It then writes exactly the `while` lines, with a fresh flag when there is an `else`. |
| Visitor.RB.VisitImport | py2cr/__init__.py:1279-1324 | Records the alias and writes a require the first time a module that needs one is imported. |
| Visitor.RB.WriteComments | py2cr/__init__.py:1562-1567 | Writes one comment line per docstring line. |
| Visitor.RB.VisitExprStmt | py2cr/__init__.py:1552-1569 | A string statement becomes comment lines and any other expression one line. Nothing is written on error. |
| Visitor.RB.VisitReturn | py2cr/__init__.py:858-863 | `return` alone, or `return v` with the rendered value. Nothing is written on error. |
| Visitor.RB.VisitCompound | py2cr/__init__.py:432-455 | Dispatches definitions and loops. The status never drops and text is only appended. |
| Visitor.RB.VisitSimple | py2cr/__init__.py:1552-1578 | An unsupported statement stops the run in stop mode and leaves a warning in warning mode. `pass`, `break` and `continue` append exactly `# pass`, `break` and `next` at the current level. Expressions and returns write exactly their specified lines. An import records its alias and writes its require line. |
| Visitor.RB.VisitStmt | py2cr/__init__.py:432-455 | In silent mode, only definitions and imports have an effect. An unsupported statement stops the run in stop mode and leaves a warning in warning mode. Outside silent mode, an expression, `return` or keyword statement writes exactly its specified text. |
| Visitor.RB.VisitBody | py2cr/__init__.py:457-487 | A body with an unsupported statement fails in stop mode. In warning mode it leaves at least a warning. In silent mode, a body without definitions or imports changes nothing. Outside it, a body of expression, `return` and keyword statements writes exactly the specified body text. |
| Visitor.Convert | py2cr/__init__.py:2795-2829 | The returned header is always empty, because the first read took everything. Without no-stop, a target with an unsupported statement fails. With it, such a target finishes with at least a warning. With no helper modules, a target of expression, `return` and keyword statements returns exactly the specified body text and its status. |

## Left out

- Statement kinds other than definitions, loops, `return`, expression statements, `pass`/`break`/`continue` and `import`. This covers assignments, `if`, `with`, `try`, `raise`, `del`, `assert`, `global` and `from … import`. The model treats them as one kind of statement without a visitor. In stop mode such a statement is an error; in warning mode it is a warning; in silent mode it is skipped. The real visitors of these kinds are not modelled.
- Expression kinds other than names, constants, tuples, lists, dicts, attributes, subscripts, slices, comparisons, calls and lambdas. This covers boolean, unary and binary operators, comprehensions, f-strings, sets and `yield`. They are treated as expressions without a visitor.
- Class variables and the accessors written for them, because class-level assignments are not modelled.
- The `module X` wrapper that `visit_Module` writes for module paths in the model's input, and `module_function` lines. The model covers files converted without module paths.
- Imports resolved through the filesystem (`mod_paths`, `_import_files`, `require "./…"`) and the call-name rewriting that depends on them. There is no filesystem in the model.
- `methods_map`, the YAML method table, with `get_methods_map` and `key_list_check`. That table is empty in the core, so these branches of `visit_Call` and `visit_Attribute` are not reached.
- String escaping: `visit_Str`'s `repr` and regular expression are modelled as quoting the text as it is. This is exact for plain printable text.
- The docstring prefix strip uses a regular expression. It is modelled as removing a literal leading prefix, exact for indentation without regular-expression metacharacters.
- Diagnostics written to standard error, `vprint` and the line and column in error messages, because they are I/O.
- The command line, `convert_py2cr_write` and `main`, because they are I/O.
- The Python version branch of `node_slice_value`: Python 3.9 or later is assumed.
- Only the first alias of an `import` statement is visited, as in the source.
- Visitor.RB.VisitImport: an `import m as a` for a module with a require records the alias exactly as the source does. The `Foo = Imported::…` line is written only for filesystem imports and is left out with them.
- `RuntimeFault` carries the name of the Python runtime error the source raises (`IndexError`, `KeyError`, `TypeError`, `NameError`, `AttributeError`, `UnboundLocalError`). The message text is not modelled.
- Lowering.ApplyRule: a rule whose body returns `None` (`numpy.arange`, numpy's `os.walk`) is always an error in the model, which deliberately gives such a rule no text. The source differs by context. As the whole of an expression statement, `write(None)` raises "Convert Error.". As an argument of another call, joining `None` with text raises a `TypeError`. Where the text is formatted with `%`, the source writes `None`: `return None` (`visit_Return`, py2cr/__init__.py:858-866), `None.py_each do |x|` (`visit_For`, py2cr/__init__.py:1030-1060) and `while None` (`visit_While`, py2cr/__init__.py:1081-1090). The model does not produce those lines.
- Lowering.ConstantText: a bytes literal is an error in the model. `visit_Bytes` (py2cr/__init__.py:1847-1853) returns the `bytes` object itself. Where the text is formatted with `%` the source writes its `repr` (`return b'ab'`), and elsewhere joining it with text raises. The model does not write `b'…'` text.
- Visitor.RB.SetMode, Visitor.Convert: `convert_py2cr` passes the plain integers 2, 1 and 0 to `mode` (py2cr/__init__.py:2810-2821). `visit` and `maybewarn` compare the mode against members of the `OperationMode` enumeration (py2cr/__init__.py:432-447 and 296-299). An integer never equals such a member, so as written the silent pass is not silent, stop mode never raises, and warning mode never warns. The model follows the evident intent: each integer is the member of that value.
- Visitor.RB.SetResult: `set_result` orders members of the `ResultStatus` enumeration with `<` (py2cr/__init__.py:306-308). A plain `Enum` does not support `<`, so as written the comparison raises `TypeError`. The model orders the statuses by their values.
- Translator.FuncLookup: a rule set's `members` are the rules its class defines. `hasattr` in `func_lookup` also finds attributes every class inherits (`__init__`, `__doc__`, …). A call such as `os.path.__init__(…)` would then run that attribute as a rule. The model reports no rule for these names.
- The `_dict_format` branch of `visit_Dict` (`k: v` entries) is reached only while visiting a binary operator, which is not modelled.
- PyMain.Dict: the rule's `set_result(2)` before raising for several arguments is not modelled. The conversion error ends the run either way.
- Lowering.LowerDict: its contract states only that the status never goes down. The text of a dict literal is stated by `DictLoop` and `DictDisplay`, for simple keys and values.
- Lowering.SuperRef, Lowering.GenericAttr, Lowering.NameAttr, Lowering.LowerAttribute: their contracts state only how the state changes. The rename chain of `visit_Attribute` is stated by `NameAttribute`, `AttributeOfAttribute`, `SelfField`, `SuperOfMethod` and `SixPY3`, for the shapes they cover.
- Lowering.LowerSubscript, Lowering.LowerLambdaBlock, Lowering.ApplyRule, Lowering.LowerCallTail, Lowering.LowerCall, Lowering.CallWithCallee: their contracts state only that the status never goes down. The translations of calls and slices are stated by the lemmas about concrete call shapes instead: `PlainCall`, `MaxCall`, `LenCall`, `KeywordCall`, `AllCall`, `IsInstanceCall`, `EmptyListCall`, `EmptyDictCall`, `XSlice`, `DictOfPairs`, `SysExitCall`, `OsPathJoinCall` and `MapLambdaCall`. The block form of a lambda is stated by `LambdaOfSimple`.
- Lowering.Lower: its contract states status monotonicity and the silent-mode filter. Translations per node kind are in the lemmas listed above.
- Visitor.Convert, Visitor.RB.VisitBody, Visitor.RB.VisitStmt: the written text is stated only for bodies of expression, `return`, `pass`, `break` and `continue` statements. For `Convert` it is stated only when there are no helper modules. Definitions, loops and imports inside a body, and the tables left by the silent pass over helper modules, are not tied to a text function.
- Visitor.RB.VisitFunctionDef, Visitor.RB.VisitClassDef, Visitor.RB.VisitFor, Visitor.RB.VisitWhile: the body text is stated only to exist. The text of the nested statements is not tied to a function of the body.
- Statements.ScanDecorator: the property and setter flags and the "Decorators are not supported" warning are modelled in the function, but only the static flag is stated.
- The `if self._class_functions:` guard around the wrapper loop is modelled as the loop alone. The loop does nothing on an empty list, so the two are equivalent.
- A `self` check failure raises before any line is written, so the model files no table for that function.
- In the source, `__new__` is first named `new` and then renamed by the second `if` chain, so its header keeps the name `__new__`. The model follows that code.
