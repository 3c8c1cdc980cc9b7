/**
  Worked examples of the three consumers on concrete classes: an enum
  `Color(EqualityPropertyEnum)`, an unrelated class `Foo`, and an enum with no members.
 */
module Scenarios {
  import opened Wrappers
  import opened Psi
  import opened EqualityPropertyEnumSupport
  import opened InvalidEqualityPropertyAccessInspection
  import opened EqualityPropertyEnumTypeProvider
  import opened EqualityPropertyEnumCompletionContributor

  /**
    `class Color(EqualityPropertyEnum)` with members `RED` and `BLUE`, a
    lower-case attribute, a name with a digit and an attribute without a name.
   */
  const Color: PyClass := PyClass(
    Some("Color"),
    [Some("EqualityPropertyEnum"), Some("object")],
    [Attribute(Some("RED")), Attribute(Some("helper")), Attribute(Some("BLUE")),
     Attribute(Some("RED2")), Attribute(None)])

  /** `class Foo` with the same attributes but no marker ancestor. */
  const Foo: PyClass := PyClass(Some("Foo"), [Some("object")], Color.classAttributes)

  /** An enum with no member-shaped attribute. */
  const Empty: PyClass := PyClass(Some("Empty"), [Some("EqualityPropertyEnum")], [Attribute(Some("x"))])

  const Q: Expr := Expr(0)
  const BoolType: PyType := OtherType

  function Access(name: string): QualifiedExpr {
    QualifiedExpr(Some(name), Some(Q))
  }

  lemma ColorClassified()
    ensures GetPyClassIfEqualityPropertyEnum(ClassType(Color)) == Some(Color)
  {
  }

  lemma RedPropertyName()
    ensures ToPropertyName("RED") == "is_red"
  {
  }

  lemma BluePropertyName()
    ensures ToPropertyName("BLUE") == "is_blue"
  {
  }

  /** Only `RED` and `BLUE` are members; `helper`, `RED2` and the unnamed attribute are not. */
  lemma ColorEnumMembers()
    ensures GetEnumMembers(Color) == [Attribute(Some("RED")), Attribute(Some("BLUE"))]
  {
    var attrs := Color.classAttributes;
    assert !IsMemberName("helper") by { assert !IsUpperCase("helper"[0]); }
    assert !IsMemberName("RED2") by { assert !IsUpperCase("RED2"[3]); }
    assert IsMemberName("RED");
    assert IsMemberName("BLUE");
    assert FilterMembers(attrs[4..]) == [];
    assert FilterMembers(attrs[3..]) == [] by { assert attrs[3..][1..] == attrs[4..]; }
    assert FilterMembers(attrs[2..]) == [attrs[2]] by { assert attrs[2..][1..] == attrs[3..]; }
    assert FilterMembers(attrs[1..]) == [attrs[2]] by { assert attrs[1..][1..] == attrs[2..]; }
    assert FilterMembers(attrs) == [attrs[0]] + FilterMembers(attrs[1..]) by { assert IsEnumMember(attrs[0]); }
  }

  lemma ColorMemberNames()
    ensures MemberNames(GetEnumMembers(Color)) == ["RED", "BLUE"]
  {
    ColorEnumMembers();
    var members := GetEnumMembers(Color);
    assert members[1..] == [Attribute(Some("BLUE"))];
    assert MemberNames(members[1..][1..]) == [];
    assert MemberNames(members[1..]) == ["BLUE"];
  }

  lemma ColorValidNames()
    ensures ValidPropertyNames(GetEnumMembers(Color)) == ["is_red", "is_blue"]
  {
    ColorMemberNames();
    RedPropertyName();
    BluePropertyName();
  }

  lemma ColorAvailableList()
    ensures Strings.JoinToString(["is_red", "is_blue"], ", ") == "is_red, is_blue"
  {
  }

  /** The inspection accepts both property names, and skips `IS_RED` as not property-shaped. */
  lemma ColorInspectionAccepts()
    ensures Inspect(Access("is_red"), map[Q := ClassType(Color)]) == None
    ensures Inspect(Access("is_blue"), map[Q := ClassType(Color)]) == None
    ensures Inspect(Access("IS_RED"), map[Q := ClassType(Color)]) == None
  {
    ColorClassified();
    ColorValidNames();
  }

  /** An access without a matching member is reported with the full list of valid names. */
  lemma ColorInspectionReports()
    ensures Inspect(Access("is_green"), map[Q := ClassType(Color)]) ==
      Some(MessageHeader(Color, "is_green") + "is_red, is_blue")
  {
    ColorGreenFlagged();
    ColorValidNames();
    ColorAvailableList();
  }

  lemma ColorGreenFlagged()
    ensures Inspect(Access("is_green"), map[Q := ClassType(Color)]) ==
      Some(Message(Color, "is_green", ["is_red", "is_blue"]))
  {
    ColorValidNames();
    assert "is_green" !in ["is_red", "is_blue"] by {
      assert "is_green"[3] != "is_red"[3] && "is_green"[3] != "is_blue"[3];
    }
    InspectClassified("is_green", Q, map[Q := ClassType(Color)], Color);
  }

  /** The type provider types even the non-existent `is_green` as `bool`, but not `IS_RED`. */
  lemma ColorTypes()
    ensures GetReferenceType(Some(Qualified(Access("is_green"))), map[Q := ClassType(Color)], Some(BoolType))
            == Some(BoolType)
    ensures GetReferenceType(Some(Qualified(Access("IS_RED"))), map[Q := ClassType(Color)], Some(BoolType))
            == None
  {
  }

  /** Completion suggests the two property names, in member order. */
  lemma ColorCompletion()
    ensures Completions(Qualified(QualifiedExpr(None, Some(Q))), map[Q := ClassType(Color)]) ==
      [PropertyLookup(Color, "is_red"), PropertyLookup(Color, "is_blue")]
  {
    ColorClassified();
    ColorSuggestions();
  }

  lemma ColorSuggestions()
    ensures Suggestions(Color, GetEnumMembers(Color)) ==
      [PropertyLookup(Color, "is_red"), PropertyLookup(Color, "is_blue")]
  {
    ColorValidNames();
    var r := Suggestions(Color, GetEnumMembers(Color));
    assert |r| == 2;
    assert r[0] == PropertyLookup(Color, "is_red");
    assert r[1] == PropertyLookup(Color, "is_blue");
  }

  /** A class without the marker gets no suggestion, no type and no problem. */
  lemma FooIsIgnored()
    ensures Completions(Qualified(QualifiedExpr(None, Some(Q))), map[Q := ClassType(Foo)]) == []
    ensures GetReferenceType(Some(Qualified(Access("is_red"))), map[Q := ClassType(Foo)], Some(BoolType)) == None
    ensures Inspect(Access("is_anything"), map[Q := ClassType(Foo)]) == None
  {
  }

  /** An enum without members: nothing to suggest, yet every `is_` access is typed `bool` and flagged. */
  lemma EmptyEnum()
    ensures Completions(Qualified(QualifiedExpr(None, Some(Q))), map[Q := ClassType(Empty)]) == []
    ensures GetReferenceType(Some(Qualified(Access("is_red"))), map[Q := ClassType(Empty)], Some(BoolType))
            == Some(BoolType)
    ensures Inspect(Access("is_red"), map[Q := ClassType(Empty)]) == Some(MessageHeader(Empty, "is_red"))
  {
    assert !IsMemberName("x") by { assert !IsUpperCase("x"[0]); }
    assert GetEnumMembers(Empty) == [];
    assert MessageHeader(Empty, "is_red") + "" == MessageHeader(Empty, "is_red");
  }
}
