/**
  The type provider: an access `q.is_x` on a value whose type follows the
  `EqualityPropertyEnum` convention has type `bool`. It is optimistic: it does
  not check that a member `X` exists, which is the inspection's job.
 */
module EqualityPropertyEnumTypeProvider {
  import opened Wrappers
  import opened Psi
  import opened EqualityPropertyEnumSupport
  import Inspection = InvalidEqualityPropertyAccessInspection

  /**
    The type of the reference at `anchor`, or `None` for "no opinion".
    `boolType` is the host's builtin `bool` type, when the host has one.
   */
  function GetReferenceType(anchor: Option<Element>, context: TypeEvalContext, boolType: Option<PyType>)
    : (r: Option<PyType>)
    ensures r.Some? ==> r == boolType
    ensures r.Some? <==>
      && anchor.Some? && anchor.value.Qualified?
      && anchor.value.expr.referencedName.Some?
      && IsPropertyName(anchor.value.expr.referencedName.value)
      && anchor.value.expr.qualifier.Some?
      && anchor.value.expr.qualifier.value in context
      && context[anchor.value.expr.qualifier.value].ClassType?
      && Some(BaseClassName) in context[anchor.value.expr.qualifier.value].pyClass.ancestorNames
      && boolType.Some?
  {
    match anchor
    case None => None
    case Some(OtherElement) => None
    case Some(Qualified(expr)) =>
      match expr.referencedName
      case None => None
      case Some(referencedName) =>
        if !IsPropertyName(referencedName) then None
        else match expr.qualifier
        case None => None
        case Some(qualifier) =>
          match GetType(context, qualifier)
          case None => None
          case Some(qualifierType) =>
            if !IsEqualityPropertyEnum(qualifierType) then None
            else match boolType
            case None => None
            case Some(b) => Some(b)
  }

  /** Every access the inspection flags is still typed `bool`, given the same type facts. */
  lemma FlaggedAccessIsTypedBool(node: QualifiedExpr, context: TypeEvalContext, boolType: Option<PyType>)
    requires Inspection.Inspect(node, context).Some?
    requires boolType.Some?
    ensures GetReferenceType(Some(Qualified(node)), context, boolType) == boolType
  {
  }
}
