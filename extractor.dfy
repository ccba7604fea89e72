/** The declaration extractor: the loop of `analyze_file` after parsing. */
module Extractor {
  import opened Wrappers
  import opened Ast
  import opened Records
  import opened Signature
  import opened Decorators

  /** The record of a method or a top-level function. */
  function FunctionRecordOf(def: FunctionDef): FunctionRecord
  {
    FunctionRecord(def.name, Params(def.arguments), def.returnAnnotation, DecoratorTexts(def.decorators))
  }

  /** The attribute a class-body child contributes, if any: an annotated assignment
      to a bare name is typed, a plain assignment whose first target is a bare name
      is untyped, and an empty name (falsy in Python) is skipped like any other shape. */
  function AttributeOf(child: ClassChild): Option<Attribute>
  {
    match child
    case AnnAssignChild(NameTarget(id), annotation) =>
      if id != "" then Some(Attribute(id, Some(annotation))) else None
    case AssignChild(NameTarget(id), _) =>
      if id != "" then Some(Attribute(id, None)) else None
    case _ => None
  }

  /** The methods of a class body: its direct `def` children, in order. */
  function Methods(body: seq<ClassChild>): seq<FunctionRecord>
  {
    if body == [] then []
    else
      Methods(body[..|body| - 1])
      + (match body[|body| - 1]
         case MethodChild(def) => [FunctionRecordOf(def)]
         case _ => [])
  }

  /** The attributes of a class body, in order. */
  function Attributes(body: seq<ClassChild>): seq<Attribute>
  {
    if body == [] then []
    else
      Attributes(body[..|body| - 1])
      + (match AttributeOf(body[|body| - 1])
         case Some(attribute) => [attribute]
         case None => [])
  }

  /** The record of one class statement. */
  function ClassRecordOf(name: string, decorators: seq<Decorator>, body: seq<ClassChild>): ClassRecord
  {
    ClassRecord(name, DecoratorTexts(decorators), Methods(body), Attributes(body))
  }

  /** The class records of a module body, in order. */
  function Classes(tree: seq<Stmt>): seq<ClassRecord>
  {
    if tree == [] then []
    else
      Classes(tree[..|tree| - 1])
      + (match tree[|tree| - 1]
         case ClassStmt(name, decorators, body) => [ClassRecordOf(name, decorators, body)]
         case _ => [])
  }

  /** The function records of a module body, in order. */
  function Functions(tree: seq<Stmt>): seq<FunctionRecord>
  {
    if tree == [] then []
    else
      Functions(tree[..|tree| - 1])
      + (match tree[|tree| - 1]
         case FunctionStmt(def) => [FunctionRecordOf(def)]
         case _ => [])
  }

  // Source order: each list of a concatenation is the concatenation of the lists.

  lemma {:induction false} MethodsAppend(a: seq<ClassChild>, b: seq<ClassChild>)
    ensures Methods(a + b) == Methods(a) + Methods(b)
  {
    if b != [] {
      assert (a + b)[..|a + b| - 1] == a + b[..|b| - 1];
      MethodsAppend(a, b[..|b| - 1]);
    } else {
      assert a + b == a;
    }
  }

  lemma {:induction false} AttributesAppend(a: seq<ClassChild>, b: seq<ClassChild>)
    ensures Attributes(a + b) == Attributes(a) + Attributes(b)
  {
    if b != [] {
      assert (a + b)[..|a + b| - 1] == a + b[..|b| - 1];
      AttributesAppend(a, b[..|b| - 1]);
    } else {
      assert a + b == a;
    }
  }

  lemma {:induction false} ClassesAppend(a: seq<Stmt>, b: seq<Stmt>)
    ensures Classes(a + b) == Classes(a) + Classes(b)
  {
    if b != [] {
      assert (a + b)[..|a + b| - 1] == a + b[..|b| - 1];
      ClassesAppend(a, b[..|b| - 1]);
    } else {
      assert a + b == a;
    }
  }

  lemma {:induction false} FunctionsAppend(a: seq<Stmt>, b: seq<Stmt>)
    ensures Functions(a + b) == Functions(a) + Functions(b)
  {
    if b != [] {
      assert (a + b)[..|a + b| - 1] == a + b[..|b| - 1];
      FunctionsAppend(a, b[..|b| - 1]);
    } else {
      assert a + b == a;
    }
  }

  /** A single statement: a class gives its one record, anything else (functions,
      async functions, imports, module code) gives no class. */
  lemma ClassesOfOne(s: Stmt)
    ensures Classes([s]) == if s.ClassStmt? then [ClassRecordOf(s.name, s.decorators, s.body)] else []
  {
    assert [s][..0] == [];
  }

  /** A single statement: only a plain `def` gives a function record; async defs
      and classes give none. */
  lemma FunctionsOfOne(s: Stmt)
    ensures Functions([s]) == if s.FunctionStmt? then [FunctionRecordOf(s.def)] else []
  {
    assert [s][..0] == [];
  }

  /** A single class-body child: only a plain `def` gives a method. */
  lemma MethodsOfOne(c: ClassChild)
    ensures Methods([c]) == if c.MethodChild? then [FunctionRecordOf(c.def)] else []
  {
    assert [c][..0] == [];
  }

  /** A single class-body child gives an attribute exactly when `AttributeOf` does;
      a `def` never does. */
  lemma AttributesOfOne(c: ClassChild)
    ensures Attributes([c]) == if AttributeOf(c).Some? then [AttributeOf(c).value] else []
    ensures c.MethodChild? || c.AsyncMethodChild? || c.OtherChild? ==> Attributes([c]) == []
  {
    assert [c][..0] == [];
  }

  /** A plain assignment `a = b = …` looks at its first target only. */
  lemma AssignLaterTargetsIgnored(first: Target, rest: seq<Target>)
    ensures Attributes([AssignChild(first, rest)]) == Attributes([AssignChild(first, [])])
  {
    assert [AssignChild(first, rest)][..0] == [];
    assert [AssignChild(first, [])][..0] == [];
  }

  /** The attribute rules: a typed attribute from `name: T = …`, an untyped one from
      `name = …` (later targets ignored), nothing from any other target shape. */
  lemma AttributeRules(id: string, annotation: string, rest: seq<Target>, text: string)
    requires id != ""
    ensures AttributeOf(AnnAssignChild(NameTarget(id), annotation)) == Some(Attribute(id, Some(annotation)))
    ensures AttributeOf(AssignChild(NameTarget(id), rest)) == Some(Attribute(id, None))
    ensures AttributeOf(AnnAssignChild(OtherTarget(text), annotation)) == None
    ensures AttributeOf(AssignChild(OtherTarget(text), rest)) == None
  {
  }

  /** There are class records exactly when the module body has a class statement. */
  lemma {:induction false} ClassesEmptyIff(tree: seq<Stmt>)
    ensures Classes(tree) == [] <==> forall i :: 0 <= i < |tree| ==> !tree[i].ClassStmt?
  {
    if tree != [] {
      var init := tree[..|tree| - 1];
      ClassesEmptyIff(init);
      assert forall i :: 0 <= i < |init| ==> init[i] == tree[i];
    }
  }

  /** There are function records exactly when the module body has a `def` statement. */
  lemma {:induction false} FunctionsEmptyIff(tree: seq<Stmt>)
    ensures Functions(tree) == [] <==> forall i :: 0 <= i < |tree| ==> !tree[i].FunctionStmt?
  {
    if tree != [] {
      var init := tree[..|tree| - 1];
      FunctionsEmptyIff(init);
      assert forall i :: 0 <= i < |init| ==> init[i] == tree[i];
    }
  }

  /** There are never more records than statements. */
  lemma {:induction false} RecordCountBound(tree: seq<Stmt>)
    ensures |Classes(tree)| + |Functions(tree)| <= |tree|
  {
    if tree != [] {
      RecordCountBound(tree[..|tree| - 1]);
    }
  }

  /** The record of one method or function: its normalised signature and decorators. */
  method AnalyzeFunction(def: FunctionDef) returns (record: FunctionRecord)
    ensures record == FunctionRecordOf(def)
  {
    var args, returnType := GetArgumentsAndHints(def);
    var decorators := GetDecorators(def.decorators);
    record := FunctionRecord(def.name, args, returnType, decorators);
  }

  /** The class-body loop: methods and attributes, each in source order. */
  method AnalyzeClassBody(body: seq<ClassChild>) returns (classMethods: seq<FunctionRecord>, classAttributes: seq<Attribute>)
    ensures classMethods == Methods(body)
    ensures classAttributes == Attributes(body)
  {
    classMethods := [];
    classAttributes := [];
    for j := 0 to |body|
      invariant classMethods == Methods(body[..j])
      invariant classAttributes == Attributes(body[..j])
    {
      var child := body[j];
      assert body[..j + 1][..j] == body[..j];
      match child
      case MethodChild(def) =>
        var record := AnalyzeFunction(def);
        classMethods := classMethods + [record];
      case AnnAssignChild(target, annotationText) =>
        var name := if target.NameTarget? then Some(target.id) else None;
        var annotation := Some(annotationText);
        if name.Some? && name.value != "" {
          classAttributes := classAttributes + [Attribute(name.value, annotation)];
        }
      case AssignChild(first, _) =>
        var name := if first.NameTarget? then Some(first.id) else None;
        var annotation := None;
        if name.Some? && name.value != "" {
          classAttributes := classAttributes + [Attribute(name.value, annotation)];
        }
      case AsyncMethodChild(_) =>
      case OtherChild =>
    }
    assert body[..|body|] == body;
  }

  /** The record of one class statement: its decorators, then its body's methods
      and attributes. */
  method AnalyzeClass(name: string, decorators: seq<Decorator>, body: seq<ClassChild>) returns (record: ClassRecord)
    ensures record == ClassRecordOf(name, decorators, body)
  {
    var classDecorators := GetDecorators(decorators);
    var classMethods, classAttributes := AnalyzeClassBody(body);
    record := ClassRecord(name, classDecorators, classMethods, classAttributes);
  }

  /** `analyze_file` after parsing: one class record per class statement when classes
      are included, one function record per `def` statement when functions are,
      both in source order. */
  method AnalyzeFile(tree: seq<Stmt>, includeClasses: bool, includeFunctions: bool)
    returns (classes: seq<ClassRecord>, functions: seq<FunctionRecord>)
    ensures classes == if includeClasses then Classes(tree) else []
    ensures functions == if includeFunctions then Functions(tree) else []
  {
    classes := [];
    functions := [];
    for i := 0 to |tree|
      invariant classes == if includeClasses then Classes(tree[..i]) else []
      invariant functions == if includeFunctions then Functions(tree[..i]) else []
    {
      var node := tree[i];
      assert tree[..i + 1] == tree[..i] + [node];
      ClassesAppend(tree[..i], [node]);
      FunctionsAppend(tree[..i], [node]);
      ClassesOfOne(node);
      FunctionsOfOne(node);
      if node.ClassStmt? && includeClasses {
        var record := AnalyzeClass(node.name, node.decorators, node.body);
        classes := classes + [record];
      } else if node.FunctionStmt? && includeFunctions {
        var record := AnalyzeFunction(node.def);
        functions := functions + [record];
      }
    }
    assert tree[..|tree|] == tree;
  }
}
