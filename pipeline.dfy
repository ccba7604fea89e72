/** One file's pass through the pipeline: the extractor's records fed to the renderer. */
module Pipeline {
  import opened Wrappers
  import opened Text
  import opened Ast
  import opened Records
  import opened Signature
  import opened Decorators
  import opened Extractor
  import opened Report
  import opened ReportLemmas

  /** The report of one parsed file under the four formatting options. */
  function Summarize(path: string, tree: seq<Stmt>, includeClasses: bool, includeFunctions: bool,
                     minimalistic: bool, noAttributes: bool): string
  {
    Rendered(path, if includeClasses then Classes(tree) else [], if includeFunctions then Functions(tree) else [],
             includeClasses, includeFunctions, minimalistic, noAttributes)
  }

  /** The driver's per-file step: `analyze_file`, then `format_output`. */
  method SummarizeFile(path: string, tree: seq<Stmt>, includeClasses: bool, includeFunctions: bool,
                       minimalistic: bool, noAttributes: bool) returns (result: string)
    ensures result == Summarize(path, tree, includeClasses, includeFunctions, minimalistic, noAttributes)
  {
    var classes, functions := AnalyzeFile(tree, includeClasses, includeFunctions);
    result := FormatOutput(path, classes, functions, includeClasses, includeFunctions, minimalistic, noAttributes);
  }

  /** A file yields no text exactly when it has no class statement it may show and
      no `def` statement it may show; otherwise its report opens with the header. */
  lemma SummarizeEmptyIff(path: string, tree: seq<Stmt>, includeClasses: bool, includeFunctions: bool,
                          minimalistic: bool, noAttributes: bool)
    ensures var r := Summarize(path, tree, includeClasses, includeFunctions, minimalistic, noAttributes);
      var shown := (includeClasses && exists i :: 0 <= i < |tree| && tree[i].ClassStmt?)
                || (includeFunctions && exists i :: 0 <= i < |tree| && tree[i].FunctionStmt?);
      (r == "" <==> !shown) && (shown ==> Header(path) + "\n\n" <= r)
  {
    ClassesEmptyIff(tree);
    FunctionsEmptyIff(tree);
    RenderedEmptyIff(path, if includeClasses then Classes(tree) else [], if includeFunctions then Functions(tree) else [],
                     includeClasses, includeFunctions, minimalistic, noAttributes);
  }

  function PointTree(): seq<Stmt>
  {
    [ClassStmt("Point", [], [
      AnnAssignChild(NameTarget("x"), "int"),
      AnnAssignChild(NameTarget("y"), "int"),
      MethodChild(FunctionDef("dist", Arguments([], [Arg("self", None)], None, [], None), Some("float"), []))])]
  }

  function PointRecord(): ClassRecord
  {
    ClassRecord("Point", [], [FunctionRecord("dist", [Param("self", None)], Some("float"), [])],
                [Attribute("x", Some("int")), Attribute("y", Some("int"))])
  }

  /** The body of `Point` gives the one method. */
  lemma PointMethods()
    ensures Methods(PointTree()[0].body) == PointRecord().methods
  {
    var body := PointTree()[0].body;
    assert FunctionRecordOf(body[2].def) == PointRecord().methods[0];
    assert body[..2] == [body[0]] + [body[1]];
    assert body == body[..2] + [body[2]];
    MethodsAppend(body[..2], [body[2]]);
    MethodsAppend([body[0]], [body[1]]);
    MethodsOfOne(body[0]);
    MethodsOfOne(body[1]);
    MethodsOfOne(body[2]);
  }

  /** The body of `Point` gives the two typed attributes. */
  lemma PointAttributes()
    ensures Attributes(PointTree()[0].body) == PointRecord().attributes
  {
    var body := PointTree()[0].body;
    assert body[..2] == [body[0]] + [body[1]];
    assert body == body[..2] + [body[2]];
    AttributesAppend(body[..2], [body[2]]);
    AttributesAppend([body[0]], [body[1]]);
    AttributesOfOne(body[0]);
    AttributesOfOne(body[1]);
    AttributesOfOne(body[2]);
  }

  /** Extracting the `Point` class keeps both annotated attributes and the method. */
  lemma PointExtracted()
    ensures Classes(PointTree()) == [PointRecord()]
    ensures Functions(PointTree()) == []
  {
    PointMethods();
    PointAttributes();
    ClassesOfOne(PointTree()[0]);
    FunctionsOfOne(PointTree()[0]);
  }

  /** The method line of `dist` in full mode. */
  lemma DistElements()
    ensures MethodsElements(PointRecord().methods, false) == ["    Method: dist(self) -> float", ""]
  {
    var distRecord := PointRecord().methods[0];
    assert ArgsText([Param("self", None)]) == "self" by {
      ArgsTextSnoc([], Param("self", None));
    }
    assert ReturnSuffix(Some("float")) == " -> float";
    assert CallableLine("    Method: ", distRecord) == "    Method: dist(self) -> float";
    assert PointRecord().methods[..0] == [];
  }

  /** The attribute lines of `Point`. */
  lemma PointAttributeLines()
    ensures AttributeLines(PointRecord().attributes) == ["    x: int", "    y: int"]
  {
    var attributes := PointRecord().attributes;
    assert attributes[..1] == [attributes[0]];
    assert [attributes[0]][..0] == [];
    assert Hinted("x", Some("int")) == "x: int";
    assert Hinted("y", Some("int")) == "y: int";
    assert "    " + "x: int" == "    x: int";
    assert "    " + "y: int" == "    y: int";
  }

  /** The elements of the `Point` class in full mode. */
  lemma PointClassElements()
    ensures ClassesElements([PointRecord()], false, false)
         == ["  Class: Point", "", "    x: int", "    y: int", "", "    Method: dist(self) -> float", ""]
  {
    DistElements();
    PointAttributeLines();
    assert DecoratorLines([], "  ", "  ") == [];
    assert "  Class: " + "Point" == "  Class: Point";
    assert [PointRecord()][..0] == [];
  }

  /** The elements of the `Point` report in full mode. */
  lemma PointElements()
    ensures Elements("path", [PointRecord()], [], true, true, false, false)
         == ["=== path: ===", "", "  Class: Point", "", "    x: int", "    y: int", "",
             "    Method: dist(self) -> float", "", ""]
  {
    PointClassElements();
    assert Header("path") == "=== path: ===";
  }

  /** A class `Point` with attributes `x: int`, `y: int` and a method
      `def dist(self) -> float`, in full mode: the header, the class line, the two
      attribute lines, the method line, each block followed by a blank line. */
  lemma PointScenario()
    ensures Summarize("path", PointTree(), true, true, false, false)
         == Join(["=== path: ===", "", "  Class: Point", "", "    x: int", "    y: int", "",
                  "    Method: dist(self) -> float", "", ""], "\n")
  {
    PointExtracted();
    assert Summarize("path", PointTree(), true, true, false, false)
        == Rendered("path", [PointRecord()], [], true, true, false, false);
    PointElements();
  }

  function AddTree(): seq<Stmt>
  {
    [OtherStmt,
     FunctionStmt(FunctionDef("add", Arguments([], [Arg("a", None), Arg("b", None)], None, [], None), None,
                              [NameDecorator("staticmethod")]))]
  }

  function AddRecord(): FunctionRecord
  {
    FunctionRecord("add", [Param("a", None), Param("b", None)], None, ["staticmethod"])
  }

  /** The decorated top-level `def add(a, b)` gives one function record; the
      statement before it gives nothing. */
  lemma AddExtracted()
    ensures Functions(AddTree()) == [AddRecord()]
    ensures Classes(AddTree()) == []
  {
    var tree := AddTree();
    assert tree == [tree[0]] + [tree[1]];
    FunctionsAppend([tree[0]], [tree[1]]);
    ClassesAppend([tree[0]], [tree[1]]);
    FunctionsOfOne(tree[0]);
    FunctionsOfOne(tree[1]);
    ClassesOfOne(tree[0]);
    ClassesOfOne(tree[1]);
    var args := tree[1].def.arguments.args;
    assert args[..1] == [args[0]] && [args[0]][..0] == [];
    assert Params(tree[1].def.arguments) == AddRecord().args;
    assert DecoratorTexts([NameDecorator("staticmethod")]) == ["staticmethod"];
    assert FunctionRecordOf(tree[1].def) == AddRecord();
  }

  /** The elements of `add` in minimalistic mode: decorator line, then its line. */
  lemma AddFunctionElements()
    ensures FunctionsElements([AddRecord()], true) == ["   @staticmethod", "    add(a, b)", ""]
  {
    var add := AddRecord();
    assert ArgsText(add.args) == "a, b" by {
      ArgsTextSnoc([], Param("a", None));
      ArgsTextSnoc([Param("a", None)], Param("b", None));
      assert [Param("a", None)] + [Param("b", None)] == add.args;
      assert "a" + ", " + "b" == "a, b";
    }
    assert CallableLine("    ", add) == "    add(a, b)";
    assert DecoratorBlock(add.decorators, "   ", "  |") == "   @staticmethod" by {
      DecoratorBlockSnoc([], "staticmethod", "   ", "  |");
      assert "   " + "@" + "staticmethod" == "   @staticmethod";
    }
    assert [add][..0] == [];
  }

  /** Rendering `add` in minimalistic mode: the `  Functions:` element, the
      decorator line `   @staticmethod`, the line `    add(a, b)`, then blanks. */
  lemma AddElements()
    ensures Elements("path", [], [AddRecord()], true, true, true, false)
         == ["=== path: ===", "", "  Functions:\n", "   @staticmethod", "    add(a, b)", "", "", ""]
  {
    AddFunctionElements();
    assert Header("path") == "=== path: ===";
  }

  /** A bare function `def add(a, b)` with decorator `@staticmethod`, minimalistic. */
  lemma AddScenario()
    ensures Summarize("path", AddTree(), true, true, true, false)
         == Join(["=== path: ===", "", "  Functions:\n", "   @staticmethod", "    add(a, b)", "", "", ""], "\n")
  {
    AddExtracted();
    assert Summarize("path", AddTree(), true, true, true, false)
        == Rendered("path", [], [AddRecord()], true, true, true, false);
    AddElements();
  }
}
