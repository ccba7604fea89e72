/** The intermediate model that the extractor builds and the renderer prints:
    the dictionaries and tuples of the source as records. */
module Records {
  import opened Wrappers

  /** One `(name, type)` pair of `args_info`. */
  datatype Param = Param(name: string, hint: Option<string>)

  /** A method or function dictionary: name, args, return_type, decorators. */
  datatype FunctionRecord = FunctionRecord(
    name: string,
    args: seq<Param>,
    returnType: Option<string>,
    decorators: seq<string>)

  /** A class attribute dictionary: name and type. */
  datatype Attribute = Attribute(name: string, typeText: Option<string>)

  /** A class dictionary: name, decorators, methods, attributes. */
  datatype ClassRecord = ClassRecord(
    name: string,
    decorators: seq<string>,
    methods: seq<FunctionRecord>,
    attributes: seq<Attribute>)
}
