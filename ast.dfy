/** The part of Python's `ast` tree that the extractor looks at. Every
    `ast.unparse(...)` result the source computes is given here as its text. */
module Ast {
  import opened Wrappers

  /** One `ast.arg`: the parameter name and the unparsed annotation, if any. */
  datatype Arg = Arg(name: string, annotation: Option<string>)

  /** `ast.arguments`: positional-only, ordinary positional, `*vararg`,
      keyword-only and `**kwarg` parameters. */
  datatype Arguments = Arguments(
    posonlyargs: seq<Arg>,
    args: seq<Arg>,
    vararg: Option<Arg>,
    kwonlyargs: seq<Arg>,
    kwarg: Option<Arg>)

  /** A decorator expression by shape: `ast.Name`, `ast.Call` (callee text,
      positional argument texts, keyword argument texts), or anything else. */
  datatype Decorator =
    | NameDecorator(id: string)
    | CallDecorator(funcText: string, argTexts: seq<string>, keywordTexts: seq<string>)
    | OtherDecorator(text: string)

  /** `ast.FunctionDef` (also the shape of `ast.AsyncFunctionDef`). */
  datatype FunctionDef = FunctionDef(
    name: string,
    arguments: Arguments,
    returnAnnotation: Option<string>,
    decorators: seq<Decorator>)

  /** The left-hand side of an assignment: a bare `ast.Name` or any other shape. */
  datatype Target = NameTarget(id: string) | OtherTarget(text: string)

  /** A direct child of a class body. `ast.Assign` always has at least one
      target, so the first one is kept apart from the rest. Nested classes,
      `if` blocks, expressions and so on are `OtherChild`. */
  datatype ClassChild =
    | MethodChild(def: FunctionDef)
    | AsyncMethodChild(def: FunctionDef)
    | AnnAssignChild(target: Target, annotation: string)
    | AssignChild(first: Target, rest: seq<Target>)
    | OtherChild

  /** A top-level statement of the module body. */
  datatype Stmt =
    | ClassStmt(name: string, decorators: seq<Decorator>, body: seq<ClassChild>)
    | FunctionStmt(def: FunctionDef)
    | AsyncFunctionStmt(def: FunctionDef)
    | OtherStmt
}
