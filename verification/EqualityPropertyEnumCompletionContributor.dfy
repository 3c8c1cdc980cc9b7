/**
  The completion provider: after `q.` on a value whose type follows the
  `EqualityPropertyEnum` convention, it suggests one synthetic property per member.
 */
module EqualityPropertyEnumCompletionContributor {
  import opened Wrappers
  import opened Psi
  import opened EqualityPropertyEnumSupport
  import opened InvalidEqualityPropertyAccessInspection
  import TypeProvider = EqualityPropertyEnumTypeProvider

  /** A suggestion: the text to insert, the type text shown beside it, its tail text and whether that is grayed. */
  datatype LookupElement = LookupElement(
    lookupString: string, typeText: Option<string>, tailText: string, tailGrayed: bool)

  /** The suggestion for one property of `pyClass`. */
  function PropertyLookup(pyClass: PyClass, propertyName: string): (r: LookupElement)
    ensures r.lookupString == propertyName
    ensures r.typeText == pyClass.name
    ensures r.tailText == ": bool" && r.tailGrayed
  {
    LookupElement(propertyName, pyClass.name, ": bool", true)
  }

  /** The suggestions for the members of `pyClass`: one per valid property name, in order. */
  function Suggestions(pyClass: PyClass, members: seq<Attribute>): (r: seq<LookupElement>)
    ensures |r| == |ValidPropertyNames(members)|
    ensures forall i :: 0 <= i < |r| ==> r[i] == PropertyLookup(pyClass, ValidPropertyNames(members)[i])
  {
    var names := ValidPropertyNames(members);
    seq(|names|, i requires 0 <= i < |names| => PropertyLookup(pyClass, names[i]))
  }

  /** What one call of the provider adds, for the element enclosing the completion position. */
  function Completions(parent: Element, context: TypeEvalContext): (r: seq<LookupElement>)
    ensures r != [] ==>
      && parent.Qualified?
      && parent.expr.qualifier.Some?
      && parent.expr.qualifier.value in context
      && IsEqualityPropertyEnum(context[parent.expr.qualifier.value])
  {
    match parent
    case OtherElement => []
    case Qualified(position) =>
      match position.qualifier
      case None => []
      case Some(qualifier) =>
        match GetType(context, qualifier)
        case None => []
        case Some(qualifierType) =>
          match GetPyClassIfEqualityPropertyEnum(qualifierType)
          case None => []
          case Some(pyClass) => Suggestions(pyClass, GetEnumMembers(pyClass))
  }

  /** The host's completion result set; adding only ever appends. */
  class CompletionResultSet {
    var elements: seq<LookupElement>

    constructor ()
      ensures elements == []
    {
      elements := [];
    }

    method AddElement(element: LookupElement)
      modifies this
      ensures elements == old(elements) + [element]
    {
      elements := elements + [element];
    }
  }

  lemma SuggestionsAppend(pyClass: PyClass, xs: seq<Attribute>, ys: seq<Attribute>)
    ensures Suggestions(pyClass, xs + ys) == Suggestions(pyClass, xs) + Suggestions(pyClass, ys)
  {
    ValidPropertyNamesAppend(xs, ys);
  }

  /** Extending the members by one adds that member's suggestion when it has a name. */
  lemma SuggestionsStep(pyClass: PyClass, members: seq<Attribute>, i: nat)
    requires i < |members|
    ensures Suggestions(pyClass, members[..i + 1]) == Suggestions(pyClass, members[..i]) +
      match members[i].name
      case Some(memberName) => [PropertyLookup(pyClass, ToPropertyName(memberName))]
      case None => []
  {
    assert members[..i + 1] == members[..i] + [members[i]];
    SuggestionsAppend(pyClass, members[..i], [members[i]]);
    assert MemberNames([members[i]]) == (if members[i].name.Some? then [members[i].name.value] else []);
  }

  /**
    Adds one suggestion per named member of the qualifier's class, in member
    order, and nothing when the qualifier's type does not follow the convention.
   */
  method AddCompletions(parent: Element, context: TypeEvalContext, result: CompletionResultSet)
    modifies result
    ensures result.elements == old(result.elements) + Completions(parent, context)
  {
    if !parent.Qualified? { return; }
    var position := parent.expr;
    if position.qualifier.None? { return; }
    var qualifier := position.qualifier.value;

    var qualifierType := GetType(context, qualifier);
    if qualifierType.None? { return; }

    var pyClass := GetPyClassIfEqualityPropertyEnum(qualifierType.value);
    if pyClass.None? { return; }
    var enumMembers := GetEnumMembers(pyClass.value);

    assert Completions(parent, context) == Suggestions(pyClass.value, enumMembers);
    AddSuggestions(pyClass.value, enumMembers, result);
  }

  /** The `forEach` over the members: appends one suggestion per named member, in order. */
  method AddSuggestions(pyClass: PyClass, enumMembers: seq<Attribute>, result: CompletionResultSet)
    modifies result
    ensures result.elements == old(result.elements) + Suggestions(pyClass, enumMembers)
  {
    var i := 0;
    while i < |enumMembers|
      invariant 0 <= i <= |enumMembers|
      invariant result.elements == old(result.elements) + Suggestions(pyClass, enumMembers[..i])
    {
      var member := enumMembers[i];
      SuggestionsStep(pyClass, enumMembers, i);
      if member.name.Some? {
        var memberName := member.name.value;
        var propertyName := ToPropertyName(memberName);
        var lookupElement := PropertyLookup(pyClass, propertyName);
        result.AddElement(lookupElement);
      }
      i := i + 1;
    }
    assert enumMembers[..i] == enumMembers;
  }

  // Agreement between the three consumers

  /** On a classified qualifier, the suggested names are exactly the inspection's valid names, in order. */
  lemma CompletionNamesAreValidNames(position: QualifiedExpr, context: TypeEvalContext)
    requires position.qualifier.Some? && position.qualifier.value in context
    requires IsEqualityPropertyEnum(context[position.qualifier.value])
    ensures var pyClass := context[position.qualifier.value].pyClass;
            var r := Completions(Qualified(position), context);
            && |r| == |ValidPropertyNames(GetEnumMembers(pyClass))|
            && forall i :: 0 <= i < |r| ==>
                 && r[i].lookupString == ValidPropertyNames(GetEnumMembers(pyClass))[i]
                 && r[i].typeText == pyClass.name
                 && r[i].tailText == ": bool" && r[i].tailGrayed
  {
  }

  /** No suggestion would be flagged by the inspection, whatever access it completes. */
  lemma CompletionsAreNeverFlagged(parent: Element, context: TypeEvalContext, k: nat)
    requires k < |Completions(parent, context)|
    ensures IsPropertyName(Completions(parent, context)[k].lookupString)
    ensures Inspect(QualifiedExpr(Some(Completions(parent, context)[k].lookupString), parent.expr.qualifier),
                    context) == None
  {
  }

  /** Every suggestion is typed `bool` by the type provider, given the same type facts. */
  lemma CompletionsAreTypedBool(parent: Element, context: TypeEvalContext, boolType: Option<PyType>, k: nat)
    requires k < |Completions(parent, context)|
    requires boolType.Some?
    ensures TypeProvider.GetReferenceType(
              Some(Qualified(QualifiedExpr(Some(Completions(parent, context)[k].lookupString),
                                           parent.expr.qualifier))),
              context, boolType) == boolType
  {
  }
}
