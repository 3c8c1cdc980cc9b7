/**
  The shared classification and naming scheme: which types follow the
  `EqualityPropertyEnum` convention, which of their attributes are enum members,
  and how a member name becomes a synthetic boolean property name.
  Characters are restricted to ASCII: upper case means `A`..`Z`.
 */
module EqualityPropertyEnumSupport {
  import opened Wrappers
  import opened Psi

  /** The name of the marker base class. */
  const BaseClassName: string := "EqualityPropertyEnum"

  /** The prefix of every synthetic property name. */
  const PropertyPrefix: string := "is_"

  /** `Char.isUpperCase` on the ASCII range. */
  predicate IsUpperCase(c: char) {
    'A' <= c <= 'Z'
  }

  /** The upper-case characters are exactly the 26 capital letters; `_` is not one of them. */
  lemma UpperCaseLetters(c: char)
    ensures IsUpperCase(c) <==> c in "ABCDEFGHIJKLMNOPQRSTUVWXYZ"
    ensures !IsUpperCase('_')
  {
  }

  /** Lower-cases an ASCII letter and leaves every other character alone. */
  function LowercaseChar(c: char): (r: char)
    ensures IsUpperCase(c) ==> r as int == c as int + 32
    ensures !IsUpperCase(c) ==> r == c
  {
    if IsUpperCase(c) then (c as int + 32) as char else c
  }

  function Lowercase(s: string): (r: string)
    ensures |r| == |s|
    ensures forall i :: 0 <= i < |s| ==> r[i] == LowercaseChar(s[i])
    ensures forall i :: 0 <= i < |r| ==> !IsUpperCase(r[i])
  {
    seq(|s|, i requires 0 <= i < |s| => LowercaseChar(s[i]))
  }

  /** A name every character of which is upper case or `_` (the empty name included). */
  function IsMemberName(s: string): (r: bool)
    ensures r <==> forall c :: c in s ==> IsUpperCase(c) || c == '_'
    ensures s == [] ==> r
  {
    forall i :: 0 <= i < |s| ==> IsUpperCase(s[i]) || s[i] == '_'
  }

  /** The attribute filter of the member enumeration: a name that exists and is member-shaped. */
  function IsEnumMember(attr: Attribute): (r: bool)
    ensures attr.name.None? ==> !r
    ensures attr.name == Some("") ==> r
    ensures r ==> forall c :: c in attr.name.value ==> IsUpperCase(c) || c == '_'
  {
    attr.name.Some? && IsMemberName(attr.name.value)
  }

  /** Scans an ancestor list for a class named exactly `BaseClassName`. */
  function AnyAncestorIsBase(ancestorNames: seq<Option<string>>): (r: bool)
    ensures r <==> Some(BaseClassName) in ancestorNames
  {
    if ancestorNames == [] then false
    else ancestorNames[0] == Some(BaseClassName) || AnyAncestorIsBase(ancestorNames[1..])
  }

  /** The declaring class of `t` when `t` follows the convention. */
  function GetPyClassIfEqualityPropertyEnum(t: PyType): (r: Option<PyClass>)
    ensures r.Some? <==> t.ClassType? && Some(BaseClassName) in t.pyClass.ancestorNames
    ensures r.Some? ==> r.value == t.pyClass
  {
    if !t.ClassType? then None
    else if AnyAncestorIsBase(t.pyClass.ancestorNames) then Some(t.pyClass)
    else None
  }

  /** Whether `t` follows the convention; agrees with `GetPyClassIfEqualityPropertyEnum`. */
  function IsEqualityPropertyEnum(t: PyType): (r: bool)
    ensures r <==> GetPyClassIfEqualityPropertyEnum(t).Some?
    ensures r ==> t.ClassType?
  {
    if !t.ClassType? then false
    else AnyAncestorIsBase(t.pyClass.ancestorNames)
  }

  /** The enum members of a class: its attributes kept by `IsEnumMember`, in declaration order. */
  function GetEnumMembers(pyClass: PyClass): (r: seq<Attribute>)
    ensures |r| <= |pyClass.classAttributes|
  {
    FilterMembers(pyClass.classAttributes)
  }

  function FilterMembers(attrs: seq<Attribute>): (r: seq<Attribute>)
    ensures |r| <= |attrs|
    ensures attrs != [] && IsEnumMember(attrs[0]) ==> r != [] && r[0] == attrs[0]
  {
    if attrs == [] then []
    else (if IsEnumMember(attrs[0]) then [attrs[0]] else []) + FilterMembers(attrs[1..])
  }

  /** The synthetic property name of a member: the prefix, then the member name lower-cased. */
  function ToPropertyName(enumMemberName: string): (r: string)
    ensures |r| == |PropertyPrefix| + |enumMemberName|
    ensures r[..|PropertyPrefix|] == PropertyPrefix
    ensures r[|PropertyPrefix|..] == Lowercase(enumMemberName)
  {
    PropertyPrefix + Lowercase(enumMemberName)
  }

  /** Whether `name` is shaped like a synthetic property name (a prefix test only). */
  function IsPropertyName(name: string): (r: bool)
    ensures r <==> |name| >= 3 && name[0] == 'i' && name[1] == 's' && name[2] == '_'
  {
    PropertyPrefix <= name
  }

  // Properties of the naming scheme

  /** Every synthetic property name passes the prefix test. */
  lemma PropertyNameIsPropertyShaped(enumMemberName: string)
    ensures IsPropertyName(ToPropertyName(enumMemberName))
  {
  }

  /**
    The member filter keeps exactly the attributes `IsEnumMember` accepts, each
    as often as the class declares it, and drops every other one.
   */
  lemma {:induction false} FilterMembersContents(attrs: seq<Attribute>)
    ensures forall a :: a in FilterMembers(attrs) <==> a in attrs && IsEnumMember(a)
    ensures forall a :: multiset(FilterMembers(attrs))[a] ==
                        if IsEnumMember(a) then multiset(attrs)[a] else 0
  {
    if attrs != [] {
      FilterMembersContents(attrs[1..]);
      assert attrs == [attrs[0]] + attrs[1..];
    }
  }

  /** The member filter keeps declaration order: it distributes over concatenation. */
  lemma {:induction false} FilterMembersAppend(xs: seq<Attribute>, ys: seq<Attribute>)
    ensures FilterMembers(xs + ys) == FilterMembers(xs) + FilterMembers(ys)
  {
    if xs == [] {
      assert xs + ys == ys;
    } else {
      var head := if IsEnumMember(xs[0]) then [xs[0]] else [];
      assert (xs + ys)[0] == xs[0];
      assert (xs + ys)[1..] == xs[1..] + ys;
      calc {
        FilterMembers(xs + ys);
        head + FilterMembers(xs[1..] + ys);
        { FilterMembersAppend(xs[1..], ys); }
        head + (FilterMembers(xs[1..]) + FilterMembers(ys));
        (head + FilterMembers(xs[1..])) + FilterMembers(ys);
      }
    }
  }

  /** The enum members of a class are its member-shaped attributes, each as often as declared. */
  lemma GetEnumMembersContents(pyClass: PyClass)
    ensures forall a :: a in GetEnumMembers(pyClass) <==> a in pyClass.classAttributes && IsEnumMember(a)
    ensures forall a :: multiset(GetEnumMembers(pyClass))[a] ==
                        if IsEnumMember(a) then multiset(pyClass.classAttributes)[a] else 0
  {
    FilterMembersContents(pyClass.classAttributes);
  }

  /** Inverse of `LowercaseChar` on lower-case ASCII letters. */
  ghost function UppercaseChar(c: char): char {
    if 'a' <= c <= 'z' then (c as int - 32) as char else c
  }

  /** Recovers the member name from a synthetic property name. */
  ghost function MemberNameOf(propertyName: string): (r: string)
    requires IsPropertyName(propertyName)
  {
    var tail := propertyName[|PropertyPrefix|..];
    seq(|tail|, i requires 0 <= i < |tail| => UppercaseChar(tail[i]))
  }

  /** The naming transform loses nothing on member-shaped names. */
  lemma ToPropertyNameRoundTrip(enumMemberName: string)
    requires IsMemberName(enumMemberName)
    ensures IsPropertyName(ToPropertyName(enumMemberName))
    ensures MemberNameOf(ToPropertyName(enumMemberName)) == enumMemberName
  {
  }

  /** Distinct members have distinct synthetic property names. */
  lemma ToPropertyNameInjective(m1: string, m2: string)
    requires IsMemberName(m1) && IsMemberName(m2)
    requires ToPropertyName(m1) == ToPropertyName(m2)
    ensures m1 == m2
  {
  }
}
