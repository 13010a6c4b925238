/** The part of a Python syntax tree that the scanner looks at. Every node kind the
    scanner has no `visit_` method for (statements, other expressions, `async def`,
    keyword arguments, ...) is an `Other` node carrying its child nodes. */
module PyAst {
  import opened Wrappers

  datatype Node =
      /** `class name(...)`: `body` holds every child (bases, keywords, body
          statements, decorators) in the order the tree lists them. */
    | ClassDef(name: string, body: seq<Node>)
      /** `def name(...)`: `body` holds every child (arguments, defaults, body
          statements, decorators, annotations) in tree order. */
    | FunctionDef(name: string, body: seq<Node>)
      /** `import a.b, c as d`: the imported dotted names. */
    | Import(names: seq<string>)
      /** `from m import x, y`: `fromModule` is `None` for a relative import such as `from . import x`. */
    | ImportFrom(fromModule: Option<string>, names: seq<string>)
      /** A call: the callee expression, then the argument and keyword nodes. */
    | Call(func: Node, args: seq<Node>)
      /** A bare identifier. */
    | Name(id: string)
      /** `value.attr`. */
    | Attribute(value: Node, attr: string)
    | Other(children: seq<Node>)
}
