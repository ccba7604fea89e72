/** What the rendered report promises, stated over the specification functions
    that `FormatOutput` is proved against. */
module ReportLemmas {
  import opened Wrappers
  import opened Text
  import opened Records
  import opened Report

  /** Arguments render one per parameter, in order, as `name` or `name: hint`. */
  lemma {:induction false} ParamTextsAt(ps: seq<Param>)
    ensures |ParamTexts(ps)| == |ps|
    ensures forall i :: 0 <= i < |ps| ==> ParamTexts(ps)[i] == Hinted(ps[i].name, ps[i].hint)
  {
    if ps != [] {
      ParamTextsAt(ps[..|ps| - 1]);
    }
  }

  /** A parameter without annotation renders bare; one with annotation `T` renders
      `name: T`; an empty annotation text renders like none. */
  lemma HintedCases(name: string, t: string)
    ensures Hinted(name, None) == name
    ensures t != "" ==> Hinted(name, Some(t)) == name + ": " + t
    ensures Hinted(name, Some("")) == name
  {
  }

  /** The argument text is the parameters joined by `, `: nothing for no parameters,
      and each further parameter adds `, ` and its rendering at the end. */
  lemma ArgsTextSnoc(ps: seq<Param>, p: Param)
    ensures ArgsText([]) == ""
    ensures ArgsText([p]) == Hinted(p.name, p.hint)
    ensures ps != [] ==> ArgsText(ps + [p]) == ArgsText(ps) + ", " + Hinted(p.name, p.hint)
  {
    assert ParamTexts([p]) == [Hinted(p.name, p.hint)] by {
      assert [p][..0] == [];
    }
    if ps != [] {
      assert (ps + [p])[..|ps + [p]| - 1] == ps;
      assert ParamTexts(ps + [p]) == ParamTexts(ps) + [Hinted(p.name, p.hint)];
      ParamTextsAt(ps);
      JoinSnoc(ParamTexts(ps), Hinted(p.name, p.hint), ", ");
    }
  }

  /** ` -> T` appears exactly when a non-empty return type is present. */
  lemma ReturnSuffixCases(r: Option<string>)
    ensures ReturnSuffix(r) != "" <==> r.Some? && r.value != ""
    ensures r.Some? && r.value != "" ==> ReturnSuffix(r) == " -> " + r.value
  {
  }

  /** Decorator lines map one-to-one and in order: the first after `first`, every
      later one after `rest`. */
  lemma {:induction false} DecoratorLinesAt(ds: seq<string>, first: string, rest: string)
    ensures |DecoratorLines(ds, first, rest)| == |ds|
    ensures forall i :: 0 <= i < |ds| ==>
      DecoratorLines(ds, first, rest)[i] == (if i == 0 then first else rest) + "@" + ds[i]
  {
    if ds != [] {
      DecoratorLinesAt(ds[..|ds| - 1], first, rest);
    }
  }

  /** A decorator block is the first decorator after `first` + `@`, then each later
      one on its own line after `rest` + `@`. */
  lemma DecoratorBlockSnoc(ds: seq<string>, d: string, first: string, rest: string)
    ensures DecoratorBlock([d], first, rest) == first + "@" + d
    ensures ds != [] ==> DecoratorBlock(ds + [d], first, rest) == DecoratorBlock(ds, first, rest) + "\n" + rest + "@" + d
  {
    assert [d][..0] == [];
    assert DecoratorLines([d], first, rest) == [first + "@" + d];
    if ds != [] {
      assert (ds + [d])[..|ds + [d]| - 1] == ds;
      JoinSnoc(DecoratorLines(ds, first, rest), rest + "@" + d, "\n");
    }
  }

  /** A method shows its decorator block (prefixes `    @` and `    |@`) as one
      element when it has decorators, then its line, then a blank; the line carries
      the `    Method: ` label only outside minimalistic mode. */
  lemma MethodLayout(m: FunctionRecord, minimalistic: bool)
    ensures var es := MethodElements(m, minimalistic);
      var line := (if minimalistic then "    " else "    Method: ")
                  + m.name + "(" + ArgsText(m.args) + ")" + ReturnSuffix(m.returnType);
      es == (if m.decorators == [] then [] else [DecoratorBlock(m.decorators, "    ", "    |")]) + [line, ""]
  {
  }

  /** A function shows its decorator block (prefixes `   @` and `  |@`), then its
      line, labelled `  Function: ` only outside minimalistic mode, then a blank. */
  lemma FunctionLayout(f: FunctionRecord, minimalistic: bool)
    ensures var es := FunctionElements(f, minimalistic);
      var line := (if minimalistic then "    " else "  Function: ")
                  + f.name + "(" + ArgsText(f.args) + ")" + ReturnSuffix(f.returnType);
      es == (if f.decorators == [] then [] else [DecoratorBlock(f.decorators, "   ", "  |")]) + [line, ""]
  {
  }

  lemma BlankLinePrefix(h: string, j: string)
    ensures h + "\n\n" <= h + "\n" + ("\n" + j)
  {
  }

  /** The report is empty exactly when nothing is shown; otherwise it starts with
      the header line `=== path: ===` and a blank line, and its last character is
      the newline before the trailing blank element. */
  lemma RenderedEmptyIff(path: string, classes: seq<ClassRecord>, functions: seq<FunctionRecord>,
                         includeClasses: bool, includeFunctions: bool, minimalistic: bool, noAttributes: bool)
    ensures var r := Rendered(path, classes, functions, includeClasses, includeFunctions, minimalistic, noAttributes);
      (r == "" <==> !Shown(classes, functions, includeClasses, includeFunctions))
      && (Shown(classes, functions, includeClasses, includeFunctions) ==>
            (Header(path) + "\n\n" <= r && r[|r| - 1] == '\n'))
  {
    if Shown(classes, functions, includeClasses, includeFunctions) {
      var body := Body(classes, functions, includeClasses, includeFunctions, minimalistic, noAttributes);
      JoinFramed(Header(path), body, "\n");
      BlankLinePrefix(Header(path), Join(body + [""], "\n"));
      JoinEndsWithSep([Header(path)] + [""] + body + [""], "\n");
    }
  }

  /** The inclusion toggles act as if the excluded list were empty. */
  lemma TogglesActAsEmptyLists(path: string, classes: seq<ClassRecord>, functions: seq<FunctionRecord>,
                              includeClasses: bool, includeFunctions: bool, minimalistic: bool, noAttributes: bool)
    ensures Rendered(path, classes, functions, includeClasses, includeFunctions, minimalistic, noAttributes)
         == Rendered(path, if includeClasses then classes else [], if includeFunctions then functions else [],
                     true, true, minimalistic, noAttributes)
  {
  }

  /** The classes with every attribute list emptied. */
  function StripAttributes(cs: seq<ClassRecord>): (r: seq<ClassRecord>)
    ensures |r| == |cs|
  {
    if cs == [] then [] else StripAttributes(cs[..|cs| - 1]) + [cs[|cs| - 1].(attributes := [])]
  }

  lemma {:induction false} ClassesElementsStrip(cs: seq<ClassRecord>, minimalistic: bool)
    ensures ClassesElements(cs, minimalistic, true) == ClassesElements(StripAttributes(cs), minimalistic, false)
  {
    if cs != [] {
      var s := StripAttributes(cs);
      assert s[..|s| - 1] == StripAttributes(cs[..|cs| - 1]);
      ClassesElementsStrip(cs[..|cs| - 1], minimalistic);
    }
  }

  /** With `noAttributes` set the report is the one of the same classes without
      attributes: no attribute line and no blank line after attributes appears. */
  lemma NoAttributesDropsAttributeLines(path: string, classes: seq<ClassRecord>, functions: seq<FunctionRecord>,
                                        includeClasses: bool, includeFunctions: bool, minimalistic: bool)
    ensures Rendered(path, classes, functions, includeClasses, includeFunctions, minimalistic, true)
         == Rendered(path, StripAttributes(classes), functions, includeClasses, includeFunctions, minimalistic, false)
  {
    ClassesElementsStrip(classes, minimalistic);
  }

  lemma FunctionsHeaderPrefix(h: string, j: string)
    requires "  Functions:\n" + "\n" <= j
    ensures h + "\n\n  Functions:\n\n" <= h + "\n" + ("\n" + j)
  {
  }

  /** In minimalistic mode, with functions shown and no class shown, the report
      opens with the header, a blank line, `  Functions:`, and (from the element's
      embedded newline) one more blank line before the first function. */
  lemma MinimalisticFunctionsHeader(path: string, classes: seq<ClassRecord>, functions: seq<FunctionRecord>,
                                    includeClasses: bool, noAttributes: bool)
    requires functions != [] && !(includeClasses && classes != [])
    ensures Header(path) + "\n\n  Functions:\n\n"
         <= Rendered(path, classes, functions, includeClasses, true, true, noAttributes)
  {
    var h := Header(path);
    var body := Body(classes, functions, includeClasses, true, true, noAttributes);
    JoinFramed(h, body, "\n");
    assert body[0] == "  Functions:\n";
    JoinStartsWithFirstAndSep(body + [""], "\n");
    FunctionsHeaderPrefix(h, Join(body + [""], "\n"));
  }

  /** The elements of a non-empty function list end with the last function's line
      and its blank element. */
  lemma FunctionsElementsEnd(fs: seq<FunctionRecord>, minimalistic: bool)
    requires fs != []
    ensures var es := FunctionsElements(fs, minimalistic);
      |es| >= 2 && es[|es| - 2] == CallableLine(FunctionLabel(minimalistic), fs[|fs| - 1]) && es[|es| - 1] == ""
  {
  }

  /** When functions are shown the element list ends with the last function's
      line and three blank elements: the one after that function, the one after
      the function block, and the trailing one of the file. */
  lemma ElementsEndWithLastFunction(path: string, classes: seq<ClassRecord>, functions: seq<FunctionRecord>,
                                    includeClasses: bool, minimalistic: bool, noAttributes: bool)
    requires functions != []
    ensures var es := Elements(path, classes, functions, includeClasses, true, minimalistic, noAttributes);
      var n := |es|;
      n >= 6 && es[n - 4] == CallableLine(FunctionLabel(minimalistic), functions[|functions| - 1])
      && es[n - 3] == "" && es[n - 2] == "" && es[n - 1] == ""
  {
    var fe := FunctionsElements(functions, minimalistic);
    FunctionsElementsEnd(functions, minimalistic);
    var section := FunctionsSection(functions, minimalistic);
    var m := |section|;
    assert m >= 3 && section[m - 1] == "" && section[m - 2] == fe[|fe| - 1] && section[m - 3] == fe[|fe| - 2];
    var body := Body(classes, functions, includeClasses, true, minimalistic, noAttributes);
    var k := |body|;
    assert k >= 3 && body[k - 1] == section[m - 1] && body[k - 2] == section[m - 2] && body[k - 3] == section[m - 3];
  }
}
