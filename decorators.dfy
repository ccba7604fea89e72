/** The decorator renderer: `get_decorators`. */
module Decorators {
  import opened Text
  import opened Ast

  /** The display text of one decorator: a name is its id; a call is its callee,
      followed by its positional argument texts in parentheses when their join is
      non-empty (keyword arguments are dropped); anything else is its unparsed text. */
  function DecoratorText(d: Decorator): string
  {
    match d
    case NameDecorator(id) => id
    case CallDecorator(func, args, _) =>
      var joined := Join(args, ", ");
      if joined != "" then func + "(" + joined + ")" else func
    case OtherDecorator(text) => text
  }

  /** The texts of a decorator list, one per decorator, in order. */
  function DecoratorTexts(ds: seq<Decorator>): (ts: seq<string>)
    ensures |ts| == |ds|
    ensures forall i :: 0 <= i < |ds| ==> ts[i] == DecoratorText(ds[i])
  {
    if ds == [] then [] else DecoratorTexts(ds[..|ds| - 1]) + [DecoratorText(ds[|ds| - 1])]
  }

  /** A call renders bare exactly when it has no positional argument (or its only
      one unparses to nothing); otherwise its arguments appear comma-separated. */
  lemma CallDecoratorText(func: string, args: seq<string>, keywords: seq<string>)
    ensures DecoratorText(CallDecorator(func, args, keywords)) ==
      if |args| == 0 || (|args| == 1 && args[0] == "") then func
      else func + "(" + Join(args, ", ") + ")"
  {
    JoinEmptyIff(args, ", ");
  }

  /** One positional argument gives `func(arg)`, two give `func(a1, a2)`. */
  lemma CallDecoratorShapes(func: string, a1: string, a2: string, keywords: seq<string>)
    requires a1 != ""
    ensures DecoratorText(CallDecorator(func, [a1], keywords)) == func + "(" + a1 + ")"
    ensures DecoratorText(CallDecorator(func, [a1, a2], keywords)) == func + "(" + a1 + ", " + a2 + ")"
  {
    assert Join([a1, a2], ", ") == a1 + ", " + a2 by {
      assert [a1, a2][1..] == [a2];
    }
  }

  /** A call without positional arguments cannot be told apart from the bare name. */
  lemma ZeroArgumentCallIsBareName(func: string, keywords: seq<string>)
    ensures DecoratorText(CallDecorator(func, [], keywords)) == DecoratorText(NameDecorator(func))
  {
  }

  /** `get_decorators`: the three-way split over each decorator's shape, in order. */
  method GetDecorators(decoratorList: seq<Decorator>) returns (decorators: seq<string>)
    ensures |decorators| == |decoratorList|
    ensures forall i :: 0 <= i < |decoratorList| ==> decorators[i] == DecoratorText(decoratorList[i])
    ensures decorators == DecoratorTexts(decoratorList)
  {
    decorators := [];
    for i := 0 to |decoratorList|
      invariant |decorators| == i
      invariant forall k :: 0 <= k < i ==> decorators[k] == DecoratorText(decoratorList[k])
    {
      var decorator := decoratorList[i];
      match decorator
      case NameDecorator(id) =>
        decorators := decorators + [id];
      case CallDecorator(funcText, argTexts, _) =>
        var funcName := funcText;
        var args := Join(argTexts, ", ");
        decorators := decorators + [if args != "" then funcName + "(" + args + ")" else funcName];
      case OtherDecorator(text) =>
        decorators := decorators + [text];
    }
  }
}
