/**
  The host's program structure interface, reduced to plain data.

  The plugin never computes any of this itself: the host resolves ancestors,
  lists class-level attributes and evaluates types. Here each of those services
  is replaced by the data it would have returned.
 */
module Psi {
  import opened Wrappers

  /** A class-level attribute declaration (a target expression); its name may be unresolvable. */
  datatype Attribute = Attribute(name: Option<string>)

  /**
    A class declaration: its own (nullable) name, the names of its ancestor
    classes as the host's ancestor resolution returns them (direct and
    transitive, each nullable), and its class-level attributes in declaration order.
   */
  datatype PyClass = PyClass(
    name: Option<string>,
    ancestorNames: seq<Option<string>>,
    classAttributes: seq<Attribute>)

  /** A static type: the type of instances of one class, or any other kind of type. */
  datatype PyType = ClassType(pyClass: PyClass) | OtherType

  /** An expression, known only by its identity in the analysed file. */
  datatype Expr = Expr(id: nat)

  /** A qualified expression `qualifier.name`; both parts may be absent. */
  datatype QualifiedExpr = QualifiedExpr(referencedName: Option<string>, qualifier: Option<Expr>)

  /** A program element: a qualified expression or anything else. */
  datatype Element = Qualified(expr: QualifiedExpr) | OtherElement

  /** The host's type evaluation context: the types it can infer for expressions. */
  type TypeEvalContext = map<Expr, PyType>

  /** The type the context infers for `e`, if any. */
  function GetType(context: TypeEvalContext, e: Expr): (r: Option<PyType>)
    ensures r.Some? <==> e in context
    ensures r.Some? ==> r.value == context[e]
  {
    if e in context then Some(context[e]) else None
  }
}
