/**
  The inspection that flags `q.is_x` when `q`'s type follows the
  `EqualityPropertyEnum` convention but has no member named `X`.
 */
module InvalidEqualityPropertyAccessInspection {
  import opened Wrappers
  import opened Psi
  import opened Strings
  import opened EqualityPropertyEnumSupport

  /** A problem registered with the host: the flagged element and its description. */
  datatype Problem = Problem(element: QualifiedExpr, description: string)

  /** The names of the members that have one, in member order. */
  function MemberNames(members: seq<Attribute>): (r: seq<string>)
    ensures |r| <= |members|
  {
    if members == [] then []
    else
      (match members[0].name
       case Some(n) => [n]
       case None => []) + MemberNames(members[1..])
  }

  /** The property names the inspection accepts: one per named member, in member order. */
  function ValidPropertyNames(members: seq<Attribute>): (r: seq<string>)
    ensures |r| == |MemberNames(members)|
    ensures forall i :: 0 <= i < |r| ==> IsPropertyName(r[i])
  {
    var names := MemberNames(members);
    seq(|names|, i requires 0 <= i < |names| => ToPropertyName(names[i]))
  }

  /** How a string template renders a nullable class name. */
  function ClassNameText(name: Option<string>): (r: string)
    ensures name.Some? ==> r == name.value
    ensures name.None? ==> r == "null"
  {
    match name
    case Some(n) => n
    case None => "null"
  }

  /** The part of the message before the list of available names. */
  function MessageHeader(pyClass: PyClass, referencedName: string): (r: string)
    ensures BaseClassName <= r
    ensures |r| == 62 + |ClassNameText(pyClass.name)| + |referencedName|
  {
    BaseClassName + " member '" + ClassNameText(pyClass.name) + "' has no property '"
      + referencedName + "'. Available: "
  }

  /**
    Where the header puts its parts: the fixed words, then the class name, then
    the fixed words again, then the name that was looked up, then the fixed words
    that lead into the list.
   */
  lemma MessageHeaderLayout(pyClass: PyClass, referencedName: string)
    ensures var r, c := MessageHeader(pyClass, referencedName), |ClassNameText(pyClass.name)|;
            && r[..29] == BaseClassName + " member '"
            && r[29..29 + c] == ClassNameText(pyClass.name)
            && r[29 + c..48 + c] == "' has no property '"
            && r[48 + c..48 + c + |referencedName|] == referencedName
            && r[|r| - 14..] == "'. Available: "
  {
  }

  /** The problem description: the header, then the valid names joined with `", "`. */
  function Message(pyClass: PyClass, referencedName: string, validPropertyNames: seq<string>): (r: string)
    ensures MessageHeader(pyClass, referencedName) <= r
    ensures validPropertyNames == [] ==> r == MessageHeader(pyClass, referencedName)
    ensures validPropertyNames != [] ==> MessageHeader(pyClass, referencedName) + validPropertyNames[0] <= r
  {
    MessageHeader(pyClass, referencedName) + JoinToString(validPropertyNames, ", ")
  }

  /**
    The description of the problem the inspection registers for `node`, or
    `None` when it registers none.
   */
  function Inspect(node: QualifiedExpr, context: TypeEvalContext): (r: Option<string>)
    ensures r.Some? <==>
      && node.referencedName.Some?
      && IsPropertyName(node.referencedName.value)
      && node.qualifier.Some?
      && node.qualifier.value in context
      && context[node.qualifier.value].ClassType?
      && Some(BaseClassName) in context[node.qualifier.value].pyClass.ancestorNames
      && node.referencedName.value
           !in ValidPropertyNames(GetEnumMembers(context[node.qualifier.value].pyClass))
    ensures r.Some? ==>
      r.value == Message(context[node.qualifier.value].pyClass, node.referencedName.value,
                         ValidPropertyNames(GetEnumMembers(context[node.qualifier.value].pyClass)))
  {
    match node.referencedName
    case None => None
    case Some(referencedName) =>
      if !IsPropertyName(referencedName) then None
      else match node.qualifier
      case None => None
      case Some(qualifier) =>
        match GetType(context, qualifier)
        case None => None
        case Some(qualifierType) =>
          match GetPyClassIfEqualityPropertyEnum(qualifierType)
          case None => None
          case Some(pyClass) =>
            var validPropertyNames := ValidPropertyNames(GetEnumMembers(pyClass));
            if referencedName !in validPropertyNames
            then Some(Message(pyClass, referencedName, validPropertyNames))
            else None
  }

  /** The host's problem collector; registering only ever appends. */
  class ProblemsHolder {
    var problems: seq<Problem>

    constructor ()
      ensures problems == []
    {
      problems := [];
    }

    method RegisterProblem(element: QualifiedExpr, description: string)
      modifies this
      ensures problems == old(problems) + [Problem(element, description)]
    {
      problems := problems + [Problem(element, description)];
    }
  }

  /** The visitor the inspection builds for one file, with its analysis-scoped context. */
  class InspectionVisitor {
    const holder: ProblemsHolder
    const typeEvalContext: TypeEvalContext

    constructor (holder: ProblemsHolder, typeEvalContext: TypeEvalContext)
      ensures this.holder == holder && this.typeEvalContext == typeEvalContext
    {
      this.holder := holder;
      this.typeEvalContext := typeEvalContext;
    }

    /** Registers at most one problem for `node`: the one `Inspect` describes. */
    method VisitPyReferenceExpression(node: QualifiedExpr)
      modifies holder
      ensures holder.problems == old(holder.problems) +
        match Inspect(node, typeEvalContext)
        case None => []
        case Some(description) => [Problem(node, description)]
    {
      if node.referencedName.None? { return; }
      var referencedName := node.referencedName.value;
      if !IsPropertyName(referencedName) { return; }

      if node.qualifier.None? { return; }
      var qualifier := node.qualifier.value;
      var qualifierType := GetType(typeEvalContext, qualifier);
      if qualifierType.None? { return; }

      var pyClass := GetPyClassIfEqualityPropertyEnum(qualifierType.value);
      if pyClass.None? { return; }
      var enumMembers := GetEnumMembers(pyClass.value);
      var validPropertyNames := ValidPropertyNames(enumMembers);

      if referencedName !in validPropertyNames {
        holder.RegisterProblem(node, Message(pyClass.value, referencedName, validPropertyNames));
      }
    }
  }

  /**
    Once an access passes the prefix test and its qualifier's type is classified,
    the inspection reports it exactly when its name is not a valid name, with
    the message for that class.
   */
  lemma InspectClassified(referencedName: string, qualifier: Expr, context: TypeEvalContext, pyClass: PyClass)
    requires IsPropertyName(referencedName)
    requires qualifier in context && context[qualifier] == ClassType(pyClass)
    requires Some(BaseClassName) in pyClass.ancestorNames
    ensures var validPropertyNames := ValidPropertyNames(GetEnumMembers(pyClass));
            Inspect(QualifiedExpr(Some(referencedName), Some(qualifier)), context) ==
              if referencedName in validPropertyNames then None
              else Some(Message(pyClass, referencedName, validPropertyNames))
  {
  }

  // Properties of the valid-name list and of the message

  /** The named members' names are exactly the names some member carries. */
  lemma {:induction false} MemberNamesContents(members: seq<Attribute>)
    ensures forall n :: n in MemberNames(members) <==> Attribute(Some(n)) in members
  {
    if members != [] {
      MemberNamesContents(members[1..]);
      assert members == [members[0]] + members[1..];
    }
  }

  lemma {:induction false} MemberNamesAppend(xs: seq<Attribute>, ys: seq<Attribute>)
    ensures MemberNames(xs + ys) == MemberNames(xs) + MemberNames(ys)
  {
    if xs == [] {
      assert xs + ys == ys;
    } else {
      assert (xs + ys)[1..] == xs[1..] + ys;
      MemberNamesAppend(xs[1..], ys);
    }
  }

  /** The valid-name list keeps member order: it distributes over concatenation. */
  lemma ValidPropertyNamesAppend(xs: seq<Attribute>, ys: seq<Attribute>)
    ensures ValidPropertyNames(xs + ys) == ValidPropertyNames(xs) + ValidPropertyNames(ys)
  {
    MemberNamesAppend(xs, ys);
  }

  /**
    A name is accepted for a class exactly when it is the property name of one
    of the class's own member-shaped attributes.
   */
  lemma ValidPropertyNamesOfClass(pyClass: PyClass, name: string)
    ensures name in ValidPropertyNames(GetEnumMembers(pyClass)) <==>
      exists m :: Attribute(Some(m)) in pyClass.classAttributes && IsMemberName(m)
                  && name == ToPropertyName(m)
  {
    var members := GetEnumMembers(pyClass);
    var names := MemberNames(members);
    var valid := ValidPropertyNames(members);
    GetEnumMembersContents(pyClass);
    MemberNamesContents(members);
    if name in valid {
      var i :| 0 <= i < |valid| && valid[i] == name;
      assert names[i] in names;
      assert Attribute(Some(names[i])) in members;
    }
    if exists m :: Attribute(Some(m)) in pyClass.classAttributes && IsMemberName(m)
                   && name == ToPropertyName(m) {
      var m :| Attribute(Some(m)) in pyClass.classAttributes && IsMemberName(m)
               && name == ToPropertyName(m);
      assert IsEnumMember(Attribute(Some(m)));
      assert m in names;
      var i :| 0 <= i < |names| && names[i] == m;
      assert valid[i] == name;
    }
  }

  /** A synthetic property name never holds a comma and is never empty. */
  lemma PropertyNameIsListItem(enumMemberName: string)
    requires IsMemberName(enumMemberName)
    ensures IsListItem(ToPropertyName(enumMemberName))
  {
  }

  /** The message's tail lists exactly the valid names, in member order. */
  lemma MessageListsAvailable(pyClass: PyClass, referencedName: string)
    ensures var valid := ValidPropertyNames(GetEnumMembers(pyClass));
            var message := Message(pyClass, referencedName, valid);
            var header := MessageHeader(pyClass, referencedName);
            && header <= message
            && SplitList(message[|header|..]) == valid
  {
    var members := GetEnumMembers(pyClass);
    var names := MemberNames(members);
    var valid := ValidPropertyNames(members);
    GetEnumMembersContents(pyClass);
    MemberNamesContents(members);
    forall i | 0 <= i < |valid|
      ensures IsListItem(valid[i])
    {
      assert names[i] in names;
      assert IsEnumMember(Attribute(Some(names[i])));
      PropertyNameIsListItem(names[i]);
    }
    SplitJoinRoundTrip(valid);
    var header := MessageHeader(pyClass, referencedName);
    assert Message(pyClass, referencedName, valid)[|header|..] == JoinToString(valid, ", ");
  }
}
