# pycodemap core in Dafny

pycodemap prints a map of a Python project. For every `.py` file it extracts two lists from the parsed syntax tree:
- the top-level classes, each with its decorators, its direct methods (their signatures and decorators) and its attributes;
- the top-level functions.

It then renders both lists as an indented text report. This project models the per-file part of that work, from `pycodemap/__main__.py`:

- `get_arguments_and_hints` normalises one signature into `(name, type)` pairs. It is modelled in module `Signature`.
- `get_decorators` renders the decorator list. It is modelled in module `Decorators`.
- `analyze_file` runs after parsing. It loops over the module body, with an inner loop over each class body, and builds the class and function records. It is modelled in module `Extractor`.
- `format_output` takes the options `include_classes`, `include_functions`, `minimalistic` and `no_attributes`. It builds the list of report elements and joins it with newlines. It is modelled in module `Report`.

The other modules:
- `Ast` holds the input: the part of Python's syntax tree the extractor reads. Every `ast.unparse` result is given as its text.
- `Records` holds the dictionaries and tuples passed from the extractor to the renderer.
- `Text` holds Python's `sep.join`.
- `Pipeline` composes one file's extraction and rendering, as the driver does. It also has two worked examples.

Every source function is a loop that appends to a local list, so each becomes a Dafny `method` with a `for` loop. Each method is proved equal to a specification function. The back-recursive specification functions (`Params`, `DecoratorTexts`, `Methods`, `Attributes`, `Classes`, `Functions`, `DecoratorLines`, `AttributeLines`, `MethodsElements`, `ClassesElements`, `FunctionsElements`, `Elements`, `Rendered`) say what each loop computes. The lemmas state what the report promises.

Python truthiness is written out:
- A type hint, return type or attribute type shows only when it is present and non-empty (`Report.Truthy`).
- An attribute with an empty name is skipped (`if name:`).
- A call decorator drops its parentheses when its joined argument text is empty (`if args`).

## Model

| member | source | states |
|---|---|---|
| Signature.PositionalParams | pycodemap/__main__.py:13-18 | one pair per ordinary positional parameter, in order, with the same name, typed exactly when the parameter is annotated |
| Signature.Params | pycodemap/__main__.py:12-23 | the positional pairs come first; then `*vararg` at index `len(args)` and `**kwarg` last, each only when present and never typed; the length is args + 1 per variadic |
| Signature.ParamsIgnoreOtherKinds | pycodemap/__main__.py:13-23 | positional-only and keyword-only parameters, and the annotations of `*args`/`**kwargs`, never affect the pairs: two signatures that agree on the rest give equal lists |
| Signature.GetArgumentsAndHints | pycodemap/__main__.py:10-29 | the loop returns exactly `Params` of the signature; the return type is present exactly when the return annotation is, with the same text |
| Decorators.DecoratorTexts | pycodemap/__main__.py:34-44 | one text per decorator, in order, each the rendering of that decorator's shape |
| Decorators.CallDecoratorText | pycodemap/__main__.py:38-41 | a call decorator renders as its bare callee exactly when it has no positional argument or one empty one; otherwise as `callee(a1, a2, …)` |
| Decorators.CallDecoratorShapes | pycodemap/__main__.py:38-41 | one argument gives `f(a)`; two give `f(a, b)` |
| Decorators.ZeroArgumentCallIsBareName | pycodemap/__main__.py:36-41 | `@f()` and `@f` render identically; keyword arguments are dropped |
| Decorators.GetDecorators | pycodemap/__main__.py:32-44 | the loop returns one text per decorator, in order, each the text of that decorator's shape (name, call or other) |
| Extractor.MethodsAppend | pycodemap/__main__.py:63-72 | methods are collected in source order: the methods of a concatenated body are the methods of each part, concatenated |
| Extractor.AttributesAppend | pycodemap/__main__.py:63-87 | attributes are collected in source order, likewise |
| Extractor.ClassesAppend | pycodemap/__main__.py:55-94 | class records follow source order, likewise |
| Extractor.FunctionsAppend | pycodemap/__main__.py:55-103 | function records follow source order, likewise |
| Extractor.ClassesOfOne | pycodemap/__main__.py:56-94 | one statement gives a class record exactly when it is a class statement; functions, async functions and other statements give none |
| Extractor.FunctionsOfOne | pycodemap/__main__.py:95-103 | one statement gives a function record exactly when it is a plain `def`; async defs and classes give none |
| Extractor.MethodsOfOne | pycodemap/__main__.py:64-72 | one class-body child gives a method exactly when it is a plain `def` |
| Extractor.AttributesOfOne | pycodemap/__main__.py:73-87 | one class-body child gives an attribute exactly when it is an assignment the attribute rules accept; a `def`, an async def or any other child gives none |
| Extractor.AssignLaterTargetsIgnored | pycodemap/__main__.py:78-80 | in `a = b = …` only the first target is looked at |
| Extractor.AttributeRules | pycodemap/__main__.py:75-87 | `name: T = …` gives a typed attribute; `name = …` gives an untyped one; an assignment to a non-name target (`self.x`, `a[0]`, a tuple) gives none |
| Extractor.ClassesEmptyIff | pycodemap/__main__.py:55-94 | there are class records exactly when the module body has a class statement |
| Extractor.FunctionsEmptyIff | pycodemap/__main__.py:55-103 | there are function records exactly when the module body has a top-level `def` |
| Extractor.RecordCountBound | pycodemap/__main__.py:55-105 | there are never more records than top-level statements |
| Extractor.AnalyzeFunction | pycodemap/__main__.py:96-103 | a function record holds the name, the normalised signature, the return type and the decorator texts |
| Extractor.AnalyzeClassBody | pycodemap/__main__.py:60-87 | the class-body loop returns exactly the methods and the attributes of the body, in order |
| Extractor.AnalyzeClass | pycodemap/__main__.py:56-94 | a class record holds the name, the decorator texts, and the body's methods and attributes |
| Extractor.AnalyzeFile | pycodemap/__main__.py:52-105 | the module loop returns every class record when classes are included (none otherwise), and every function record when functions are included (none otherwise) |
| Report.DecoratorsOutput | pycodemap/__main__.py:122-124 | a decorator loop gives one line per decorator, the first after the first prefix and the others after the later prefix |
| Report.CallableOutput | pycodemap/__main__.py:138-151 | one method or function gives its decorator block (only when it has decorators), then its line, then a blank |
| Report.AttributesOutput | pycodemap/__main__.py:131-133 | the attribute loop gives one `    name` or `    name: T` line per attribute |
| Report.MethodsOutput | pycodemap/__main__.py:137-151 | the method loop gives the elements of each method, in order |
| Report.ClassOutput | pycodemap/__main__.py:117-151 | one class gives its decorator lines, `  Class: name` and a blank, its attribute lines and a blank (unless suppressed or empty), then its methods |
| Report.ClassesOutput | pycodemap/__main__.py:115-151 | the class loop gives the elements of each class, in order |
| Report.FunctionLoopOutput | pycodemap/__main__.py:156-170 | the function loop gives the elements of each function, in order |
| Report.FunctionsOutput | pycodemap/__main__.py:153-171 | the function block is the `  Functions:` element (minimalistic mode only), the functions, then a blank |
| Report.FormatOutput | pycodemap/__main__.py:108-174 | the returned text is `Rendered`: nothing when nothing is shown; otherwise the header, a blank, the classes, the function block and a trailing blank, joined by newlines |
| ReportLemmas.ParamTextsAt | pycodemap/__main__.py:143-145 | parameters render one per pair, in order, as `name` or `name: hint` |
| ReportLemmas.HintedCases | pycodemap/__main__.py:144 | an absent or empty hint renders the bare name; a hint `T` renders `name: T` |
| ReportLemmas.ArgsTextSnoc | pycodemap/__main__.py:143-145 | the argument text is empty for no parameters; each further parameter adds `, ` and its rendering |
| ReportLemmas.ReturnSuffixCases | pycodemap/__main__.py:146 | ` -> T` appears exactly when a non-empty return type is present |
| ReportLemmas.DecoratorLinesAt | pycodemap/__main__.py:140-142 | decorator lines map one-to-one to decorators: the first uses the first prefix and every later one the continuation prefix |
| ReportLemmas.DecoratorBlockSnoc | pycodemap/__main__.py:148-149 | the decorator block is one element: the first decorator after its prefix, then each later one on its own line after the bar prefix |
| ReportLemmas.MethodLayout | pycodemap/__main__.py:138-151 | a method's elements: decorator block (first prefix four spaces, later ones four spaces and a bar) if any, its line (labelled `    Method: ` outside minimalistic mode), a blank |
| ReportLemmas.FunctionLayout | pycodemap/__main__.py:157-170 | a function's elements: decorator block (first prefix three spaces, later ones two spaces and a bar) if any, its line (labelled `  Function: ` outside minimalistic mode), a blank |
| ReportLemmas.RenderedEmptyIff | pycodemap/__main__.py:110-113 | the report is empty exactly when no included list is non-empty; otherwise it opens with `=== path: ===` and a blank line and ends with a newline |
| ReportLemmas.TogglesActAsEmptyLists | pycodemap/__main__.py:111-153 | excluding classes or functions renders as if that list were empty |
| ReportLemmas.NoAttributesDropsAttributeLines | pycodemap/__main__.py:130-134 | with `no_attributes` set, the report equals that of the same classes stripped of attributes: no attribute lines and no blank after them |
| ReportLemmas.MinimalisticFunctionsHeader | pycodemap/__main__.py:153-155 | in minimalistic mode with functions and no class shown, the report starts with the header, a blank line, `  Functions:` and one more blank line |
| ReportLemmas.FunctionsElementsEnd | pycodemap/__main__.py:166-170 | the function elements end with the last function's line and its blank |
| ReportLemmas.ElementsEndWithLastFunction | pycodemap/__main__.py:169-173 | with functions shown, the elements end with the last function's line and three blanks: after the function, after the block, after the file |
| Pipeline.SummarizeFile | pycodemap/__main__.py:225-230 | one file's report is `format_output` applied to `analyze_file`'s records, under the same options |
| Pipeline.SummarizeEmptyIff | pycodemap/__main__.py:55-113 | a file yields no text exactly when it has no included class statement and no included top-level `def`; otherwise its report opens with the header and a blank line |
| Pipeline.PointExtracted | pycodemap/__main__.py:63-94 | the class `Point` with `x: int`, `y: int` and `def dist(self) -> float` gives one class record with both typed attributes and the method |
| Pipeline.PointScenario | pycodemap/__main__.py:112-134 | in full mode the `Point` report is header, blank, `  Class: Point`, blank, `    x: int`, `    y: int`, blank, `    Method: dist(self) -> float`, blank, blank |
| Pipeline.AddExtracted | pycodemap/__main__.py:95-103 | a module holding an unrelated statement and `@staticmethod def add(a, b)` gives one function record and no class |
| Pipeline.AddScenario | pycodemap/__main__.py:153-173 | in minimalistic mode the `add` report is header, blank, `  Functions:\n`, `   @staticmethod`, `    add(a, b)`, then three blanks |

## Left out

- `run()` (lines 177-238) is not modelled. It covers the command-line parsing, the `DEFAULT_EXCLUDES` set and the `--exclude` patterns, the `os.walk` traversal with `fnmatch` filtering, the output file, and printing. All of it is I/O. `Pipeline.SummarizeFile` models only the per-file call at lines 225-230.
- The `--functions-only` plus `--classes-only` conflict check belongs to `run()` and is not modelled. Every combination of the two toggles is modelled.
- The `result.strip()` test in `run()` is not modelled. `ReportLemmas.RenderedEmptyIff` shows that a non-empty report always contains the header, so that test only tells the empty report apart.
- Reading the file and `ast.parse` (lines 49-50) are not modelled. The model starts from the parsed module body (`Ast.Stmt`). A syntax error, which aborts the source, has no counterpart.
- `ast.unparse` is not modelled. Every annotation, callee, argument and decorator expression arrives as its already-unparsed text.
- Pipeline.PointScenario: states the report as a newline join of its element list, not as one literal string. The model is the same; only the final text comparison is not spelled out.
- Pipeline.AddScenario: states the report as a newline join of its element list, not as one literal string, for the same reason.
- Report.CallableOutput: one pass of the method loop and of the function loop is a separate method shared by both. Likewise `Report.ClassOutput`, `Report.DecoratorsOutput`, `Report.AttributesOutput`, `Report.MethodsOutput` and `Report.ClassesOutput` are the nested loops of `format_output`, each a method of its own. The appended elements and their order are the source's.
- Extractor.AnalyzeClass: the class branch, its body loop (`Extractor.AnalyzeClassBody`) and the function branch (`Extractor.AnalyzeFunction`) are separate methods called from the module loop. Again the records and their order are the source's.
- Async functions and methods (`ast.AsyncFunctionDef`), nested classes, and statements inside `if` or `try` blocks are not collected. The source ignores them too, and the model has explicit variants that contribute nothing.
- Idempotence and determinism are not stated as lemmas. Every operation here is a function of its inputs with no hidden state.
