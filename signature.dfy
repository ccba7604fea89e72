/** The signature normaliser: `get_arguments_and_hints`. */
module Signature {
  import opened Wrappers
  import opened Ast
  import opened Records

  /** The record of one ordinary positional parameter. */
  function ParamOf(a: Arg): Param
  {
    Param(a.name, a.annotation)
  }

  /** The records of the ordinary positional parameters, one per parameter, in order. */
  function PositionalParams(args: seq<Arg>): (ps: seq<Param>)
    ensures |ps| == |args|
    ensures forall i :: 0 <= i < |args| ==>
      ps[i].name == args[i].name && ps[i].hint == args[i].annotation
  {
    if args == [] then [] else PositionalParams(args[..|args| - 1]) + [ParamOf(args[|args| - 1])]
  }

  /** The synthetic `*name` and `**name` records, never typed. */
  function VariadicParams(a: Arguments): seq<Param>
  {
    (if a.vararg.Some? then [Param("*" + a.vararg.value.name, None)] else [])
    + (if a.kwarg.Some? then [Param("**" + a.kwarg.value.name, None)] else [])
  }

  /** The normalised parameter list: the positional parameters in source order, each
      typed exactly when annotated, then `*vararg`, then `**kwarg`, both untyped. */
  function Params(a: Arguments): (ps: seq<Param>)
    ensures |ps| == |a.args| + (if a.vararg.Some? then 1 else 0) + (if a.kwarg.Some? then 1 else 0)
    ensures forall i :: 0 <= i < |a.args| ==>
      ps[i].name == a.args[i].name && ps[i].hint == a.args[i].annotation
    ensures a.vararg.Some? ==> ps[|a.args|] == Param("*" + a.vararg.value.name, None)
    ensures a.kwarg.Some? ==> ps[|ps| - 1] == Param("**" + a.kwarg.value.name, None)
    ensures forall i :: |a.args| <= i < |ps| ==> ps[i].hint == None
  {
    PositionalParams(a.args) + VariadicParams(a)
  }

  /** Positional-only and keyword-only parameters, and the annotations of the
      variadic parameters, have no influence on the normalised list. */
  lemma ParamsIgnoreOtherKinds(a: Arguments, b: Arguments)
    requires a.args == b.args
    requires a.vararg.Some? <==> b.vararg.Some?
    requires a.vararg.Some? ==> a.vararg.value.name == b.vararg.value.name
    requires a.kwarg.Some? <==> b.kwarg.Some?
    requires a.kwarg.Some? ==> a.kwarg.value.name == b.kwarg.value.name
    ensures Params(a) == Params(b)
  {
  }

  /** `get_arguments_and_hints`: loops over `node.args.args`, then adds the variadic
      markers; the return type is the unparsed return annotation when there is one. */
  method GetArgumentsAndHints(node: FunctionDef) returns (argsInfo: seq<Param>, returnType: Option<string>)
    ensures argsInfo == Params(node.arguments)
    ensures returnType.Some? <==> node.returnAnnotation.Some?
    ensures returnType.Some? ==> returnType.value == node.returnAnnotation.value
  {
    var args := node.arguments.args;
    argsInfo := [];
    for i := 0 to |args|
      invariant argsInfo == PositionalParams(args[..i])
    {
      var arg := args[i];
      var argType := None;
      if arg.annotation.Some? {
        argType := Some(arg.annotation.value);
      }
      assert args[..i + 1][..i] == args[..i];
      argsInfo := argsInfo + [Param(arg.name, argType)];
    }
    assert args[..|args|] == args;
    if node.arguments.vararg.Some? {
      argsInfo := argsInfo + [Param("*" + node.arguments.vararg.value.name, None)];
    }
    if node.arguments.kwarg.Some? {
      argsInfo := argsInfo + [Param("**" + node.arguments.kwarg.value.name, None)];
    }
    returnType := None;
    if node.returnAnnotation.Some? {
      returnType := Some(node.returnAnnotation.value);
    }
  }
}
