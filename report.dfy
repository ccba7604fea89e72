/** The report renderer: `format_output`. The report is a list of text elements
    (some holding embedded newlines) joined with newlines. */
module Report {
  import opened Wrappers
  import opened Text
  import opened Records

  /** Python truthiness of an optional text: present and non-empty. */
  predicate Truthy(s: Option<string>)
  {
    s.Some? && s.value != ""
  }

  /** `name` or `name: hint`; an absent or empty hint adds nothing. */
  function Hinted(name: string, hint: Option<string>): string
  {
    if Truthy(hint) then name + ": " + hint.value else name
  }

  /** The rendered parameters. */
  function ParamTexts(ps: seq<Param>): seq<string>
  {
    if ps == [] then [] else ParamTexts(ps[..|ps| - 1]) + [Hinted(ps[|ps| - 1].name, ps[|ps| - 1].hint)]
  }

  /** The text between the parentheses of a method or function line. */
  function ArgsText(ps: seq<Param>): string
  {
    Join(ParamTexts(ps), ", ")
  }

  /** ` -> T` for a truthy return type, nothing otherwise. */
  function ReturnSuffix(returnType: Option<string>): string
  {
    if Truthy(returnType) then " -> " + returnType.value else ""
  }

  /** The line showing one method or function after its label. */
  function CallableLine(lead: string, f: FunctionRecord): string
  {
    lead + f.name + "(" + ArgsText(f.args) + ")" + ReturnSuffix(f.returnType)
  }

  function MethodLabel(minimalistic: bool): string
  {
    if minimalistic then "    " else "    Method: "
  }

  function FunctionLabel(minimalistic: bool): string
  {
    if minimalistic then "    " else "  Function: "
  }

  /** Decorator lines: the first one after `first`, the others after `rest`. */
  function DecoratorLines(ds: seq<string>, first: string, rest: string): seq<string>
  {
    if ds == [] then []
    else DecoratorLines(ds[..|ds| - 1], first, rest)
         + [(if |ds| == 1 then first else rest) + "@" + ds[|ds| - 1]]
  }

  /** The single element holding all decorator lines of a method or function. */
  function DecoratorBlock(ds: seq<string>, first: string, rest: string): string
  {
    Join(DecoratorLines(ds, first, rest), "\n")
  }

  /** The elements of one method or function: its decorator block if it has
      decorators, its line, and a blank element. */
  function CallableElements(f: FunctionRecord, lead: string, first: string, rest: string): seq<string>
  {
    (if f.decorators != [] then [DecoratorBlock(f.decorators, first, rest)] else [])
    + [CallableLine(lead, f)] + [""]
  }

  function MethodElements(m: FunctionRecord, minimalistic: bool): seq<string>
  {
    CallableElements(m, MethodLabel(minimalistic), "    ", "    |")
  }

  function FunctionElements(f: FunctionRecord, minimalistic: bool): seq<string>
  {
    CallableElements(f, FunctionLabel(minimalistic), "   ", "  |")
  }

  function MethodsElements(ms: seq<FunctionRecord>, minimalistic: bool): seq<string>
  {
    if ms == [] then []
    else MethodsElements(ms[..|ms| - 1], minimalistic) + MethodElements(ms[|ms| - 1], minimalistic)
  }

  function AttributeLines(attributes: seq<Attribute>): seq<string>
  {
    if attributes == [] then []
    else
      var a := attributes[|attributes| - 1];
      AttributeLines(attributes[..|attributes| - 1]) + ["    " + Hinted(a.name, a.typeText)]
  }

  /** The elements of one class: decorator lines, the class line and a blank, the
      attribute lines and a blank (unless suppressed or there are none), the methods. */
  function ClassElements(c: ClassRecord, minimalistic: bool, noAttributes: bool): seq<string>
  {
    DecoratorLines(c.decorators, "  ", "  ")
    + ["  Class: " + c.name] + [""]
    + (if !noAttributes && c.attributes != [] then AttributeLines(c.attributes) + [""] else [])
    + MethodsElements(c.methods, minimalistic)
  }

  function ClassesElements(cs: seq<ClassRecord>, minimalistic: bool, noAttributes: bool): seq<string>
  {
    if cs == [] then []
    else ClassesElements(cs[..|cs| - 1], minimalistic, noAttributes)
         + ClassElements(cs[|cs| - 1], minimalistic, noAttributes)
  }

  function FunctionsElements(fs: seq<FunctionRecord>, minimalistic: bool): seq<string>
  {
    if fs == [] then []
    else FunctionsElements(fs[..|fs| - 1], minimalistic) + FunctionElements(fs[|fs| - 1], minimalistic)
  }

  /** The functions block: the minimalistic `  Functions:` element, the functions, a blank. */
  function FunctionsSection(fs: seq<FunctionRecord>, minimalistic: bool): seq<string>
  {
    (if minimalistic then ["  Functions:\n"] else []) + FunctionsElements(fs, minimalistic) + [""]
  }

  function Header(path: string): string
  {
    "=== " + path + ": ==="
  }

  /** Whether the file has anything to show under the inclusion toggles. */
  predicate Shown(classes: seq<ClassRecord>, functions: seq<FunctionRecord>, includeClasses: bool, includeFunctions: bool)
  {
    (includeClasses && classes != []) || (includeFunctions && functions != [])
  }

  /** The elements between the header and the trailing blank: the classes, then the functions block. */
  function Body(classes: seq<ClassRecord>, functions: seq<FunctionRecord>,
                includeClasses: bool, includeFunctions: bool, minimalistic: bool, noAttributes: bool): seq<string>
  {
    (if includeClasses && classes != [] then ClassesElements(classes, minimalistic, noAttributes) else [])
    + (if includeFunctions && functions != [] then FunctionsSection(functions, minimalistic) else [])
  }

  /** The list `output` that `format_output` builds. */
  function Elements(path: string, classes: seq<ClassRecord>, functions: seq<FunctionRecord>,
                    includeClasses: bool, includeFunctions: bool, minimalistic: bool, noAttributes: bool): seq<string>
  {
    if Shown(classes, functions, includeClasses, includeFunctions) then
      [Header(path)] + [""] + Body(classes, functions, includeClasses, includeFunctions, minimalistic, noAttributes) + [""]
    else []
  }

  /** The text `format_output` returns. */
  function Rendered(path: string, classes: seq<ClassRecord>, functions: seq<FunctionRecord>,
                    includeClasses: bool, includeFunctions: bool, minimalistic: bool, noAttributes: bool): string
  {
    Join(Elements(path, classes, functions, includeClasses, includeFunctions, minimalistic, noAttributes), "\n")
  }

  lemma AppendAssoc(a: seq<string>, b: seq<string>, c: seq<string>)
    ensures a + b + c == a + (b + c)
  {
  }

  /** A decorator loop: the class one (every line `  @`), or that of a method
      (`    @`, then `    |@`) or of a function (`   @`, then `  |@`). */
  method DecoratorsOutput(decorators: seq<string>, first: string, rest: string) returns (decoratorsOutput: seq<string>)
    ensures decoratorsOutput == DecoratorLines(decorators, first, rest)
  {
    decoratorsOutput := [];
    for i := 0 to |decorators|
      invariant decoratorsOutput == DecoratorLines(decorators[..i], first, rest)
    {
      var prefix := if i == 0 then first else rest;
      assert decorators[..i + 1][..i] == decorators[..i];
      decoratorsOutput := decoratorsOutput + [prefix + "@" + decorators[i]];
    }
    assert decorators[..|decorators|] == decorators;
  }

  /** One pass of the method loop or the function loop: the decorator block when
      there are decorators, the line itself, and a blank element. */
  method CallableOutput(f: FunctionRecord, lead: string, first: string, rest: string) returns (lines: seq<string>)
    ensures lines == CallableElements(f, lead, first, rest)
  {
    var decoratorsOutput := [];
    if f.decorators != [] {
      decoratorsOutput := DecoratorsOutput(f.decorators, first, rest);
    }
    var args := ArgsText(f.args);
    var returnType := if f.returnType.Some? && f.returnType.value != "" then " -> " + f.returnType.value else "";
    var line := lead + f.name + "(" + args + ")" + returnType;
    lines := [];
    if decoratorsOutput != [] {
      lines := lines + [Join(decoratorsOutput, "\n")];
    }
    lines := lines + [line];
    lines := lines + [""];
  }

  /** The attribute loop: one `    name` or `    name: T` line per attribute. */
  method AttributesOutput(attributes: seq<Attribute>) returns (lines: seq<string>)
    ensures lines == AttributeLines(attributes)
  {
    lines := [];
    for k := 0 to |attributes|
      invariant lines == AttributeLines(attributes[..k])
    {
      var attribute := attributes[k];
      var attrType := if attribute.typeText.Some? && attribute.typeText.value != "" then ": " + attribute.typeText.value else "";
      assert attributes[..k + 1][..k] == attributes[..k];
      assert "    " + attribute.name + attrType == "    " + Hinted(attribute.name, attribute.typeText);
      lines := lines + ["    " + attribute.name + attrType];
    }
    assert attributes[..|attributes|] == attributes;
  }

  /** The method loop of one class. */
  method MethodsOutput(methods: seq<FunctionRecord>, minimalistic: bool) returns (lines: seq<string>)
    ensures lines == MethodsElements(methods, minimalistic)
  {
    lines := [];
    var methodLead := if minimalistic then "    " else "    Method: ";
    for k := 0 to |methods|
      invariant lines == MethodsElements(methods[..k], minimalistic)
    {
      var methodOutput := CallableOutput(methods[k], methodLead, "    ", "    |");
      assert methods[..k + 1][..k] == methods[..k];
      lines := lines + methodOutput;
    }
    assert methods[..|methods|] == methods;
  }

  /** One pass of the class loop: decorators, class line, attributes, methods. */
  method ClassOutput(classData: ClassRecord, minimalistic: bool, noAttributes: bool) returns (lines: seq<string>)
    ensures lines == ClassElements(classData, minimalistic, noAttributes)
  {
    lines := DecoratorsOutput(classData.decorators, "  ", "  ");
    lines := lines + ["  Class: " + classData.name];
    lines := lines + [""];
    if !noAttributes && classData.attributes != [] {
      var attributeLines := AttributesOutput(classData.attributes);
      lines := lines + (attributeLines + [""]);
    }
    var methodLines := MethodsOutput(classData.methods, minimalistic);
    lines := lines + methodLines;
  }

  /** The class loop. */
  method ClassesOutput(classes: seq<ClassRecord>, minimalistic: bool, noAttributes: bool) returns (lines: seq<string>)
    ensures lines == ClassesElements(classes, minimalistic, noAttributes)
  {
    lines := [];
    for i := 0 to |classes|
      invariant lines == ClassesElements(classes[..i], minimalistic, noAttributes)
    {
      var classOutput := ClassOutput(classes[i], minimalistic, noAttributes);
      assert classes[..i + 1][..i] == classes[..i];
      lines := lines + classOutput;
    }
    assert classes[..|classes|] == classes;
  }

  /** The function loop. */
  method FunctionLoopOutput(functions: seq<FunctionRecord>, minimalistic: bool) returns (lines: seq<string>)
    ensures lines == FunctionsElements(functions, minimalistic)
  {
    lines := [];
    var functionLead := if minimalistic then "    " else "  Function: ";
    for i := 0 to |functions|
      invariant lines == FunctionsElements(functions[..i], minimalistic)
    {
      var functionOutput := CallableOutput(functions[i], functionLead, "   ", "  |");
      assert functions[..i + 1][..i] == functions[..i];
      lines := lines + functionOutput;
    }
    assert functions[..|functions|] == functions;
  }

  /** The functions block: the minimalistic header, the function loop, a blank. */
  method FunctionsOutput(functions: seq<FunctionRecord>, minimalistic: bool) returns (lines: seq<string>)
    ensures lines == FunctionsSection(functions, minimalistic)
  {
    lines := [];
    if minimalistic {
      lines := lines + ["  Functions:\n"];
    }
    var functionLines := FunctionLoopOutput(functions, minimalistic);
    lines := lines + functionLines;
    lines := lines + [""];
  }

  /** `format_output`. */
  method FormatOutput(filepath: string, classes: seq<ClassRecord>, functions: seq<FunctionRecord>,
                      includeClasses: bool, includeFunctions: bool, minimalistic: bool, noAttributes: bool)
    returns (text: string)
    ensures text == Rendered(filepath, classes, functions, includeClasses, includeFunctions, minimalistic, noAttributes)
  {
    var output: seq<string> := [];
    if (includeClasses && classes != []) || (includeFunctions && functions != []) {
      output := output + ["=== " + filepath + ": ==="];
      output := output + [""];
      ghost var head := output;
      assert head == [Header(filepath)] + [""];
      ghost var classPart: seq<string> := [];
      ghost var functionPart: seq<string> := [];
      if includeClasses && classes != [] {
        var classLines := ClassesOutput(classes, minimalistic, noAttributes);
        output := output + classLines;
        classPart := classLines;
      }
      assert output == head + classPart;
      if includeFunctions && functions != [] {
        var functionLines := FunctionsOutput(functions, minimalistic);
        output := output + functionLines;
        functionPart := functionLines;
      }
      AppendAssoc(head, classPart, functionPart);
      assert output == head + Body(classes, functions, includeClasses, includeFunctions, minimalistic, noAttributes);
      output := output + [""];
    }
    assert output == Elements(filepath, classes, functions, includeClasses, includeFunctions, minimalistic, noAttributes);
    text := Join(output, "\n");
  }
}
