# EqualityPropertyEnum plugin: a verified model

This project models the logic of a small PyCharm plugin for Python classes that derive from a
marker base class named `EqualityPropertyEnum`. Each upper-case class attribute of such a class
(`RED`) is an enum member. The plugin treats the member as if the class declared a boolean
property named `is_` plus the lower-cased member name (`is_red`). Three host extensions use one
shared classification and naming scheme:

- an **inspection** reports `q.is_x` when `q`'s class follows the convention but has no member `X`;
- a **type provider** gives `q.is_x` the type `bool`;
- a **completion provider** suggests `is_red`, `is_blue`, ... after `q.`.

The host's program structure interface is replaced by plain data (module `Psi`):
- a class is its nullable name, the names of its ancestors as the host resolves them, and its
  class-level attributes with their nullable names;
- a type is a class type or any other type;
- a type evaluation context is a map from expressions to the types the host infers for them.

The pure parts are functions: classification, member filtering, naming, the inspection's
decision and message, the type provider and the completion result. The two places where the
plugin changes host state are methods on classes with `modifies` clauses:
`InspectionVisitor.VisitPyReferenceExpression` appends at most one problem to a
`ProblemsHolder`, and `AddCompletions` appends suggestions to a `CompletionResultSet` in a loop.
Each method is proved against the function that specifies it. The lemmas prove that the three
consumers agree:
- every suggested name is property-shaped;
- every suggested name is accepted by the inspection;
- every suggested name is typed `bool`;
- every flagged access is still typed `bool`.

Files: `Wrappers.dfy` (Option), `Psi.dfy` (host data), `Strings.dfy` (joining and splitting
lists), `EqualityPropertyEnumSupport.dfy`, `InvalidEqualityPropertyAccessInspection.dfy`,
`EqualityPropertyEnumTypeProvider.dfy`, `EqualityPropertyEnumCompletionContributor.dfy`, and
`Scenarios.dfy` (worked examples on concrete classes).

Three consequences of the code are worth spelling out:
- The member filter (`all` over the characters) accepts an attribute whose name is the empty
  string. `IsMemberName` does the same.
- The problem message reads `EqualityPropertyEnum member 'Color' has no property 'is_green'.
  Available: is_red, is_blue`. A class without a name is rendered as `null`.
- The type provider never looks at the members. So an `is_` access on an enum with no members is
  still typed `bool`. `Scenarios.EmptyEnum` proves this.

## Model

| member | source | states |
|---|---|---|
| `EqualityPropertyEnumSupport.AnyAncestorIsBase` | src/main/kotlin/com/novdov/equalityenum/EqualityPropertyEnumSupport.kt:15-17 | The ancestor scan is true exactly when some ancestor's name is exactly `EqualityPropertyEnum`. A null name never matches. |
| `EqualityPropertyEnumSupport.GetPyClassIfEqualityPropertyEnum` | src/main/kotlin/com/novdov/equalityenum/EqualityPropertyEnumSupport.kt:20-26 | Returns the type's own class iff the type is a class type and an ancestor is named `EqualityPropertyEnum`, and null otherwise. The result depends only on the ancestor list, never on the class's own name. |
| `EqualityPropertyEnumSupport.IsEqualityPropertyEnum` | src/main/kotlin/com/novdov/equalityenum/EqualityPropertyEnumSupport.kt:13-18 | True exactly when `GetPyClassIfEqualityPropertyEnum` is non-null. A non-class type is never classified. |
| `EqualityPropertyEnumSupport.FilterMembersContents` | src/main/kotlin/com/novdov/equalityenum/EqualityPropertyEnumSupport.kt:28-32 | The filter keeps an attribute iff it has a name made only of `A`-`Z` and `_` (the empty name included). Each kept attribute keeps its multiplicity. Every other attribute is dropped. |
| `EqualityPropertyEnumSupport.FilterMembersAppend` | src/main/kotlin/com/novdov/equalityenum/EqualityPropertyEnumSupport.kt:28-32 | The filter distributes over concatenation, so it preserves declaration order. |
| `EqualityPropertyEnumSupport.GetEnumMembersContents` | src/main/kotlin/com/novdov/equalityenum/EqualityPropertyEnumSupport.kt:28-32 | A class's enum members are exactly its member-shaped attributes, with their multiplicities. |
| `EqualityPropertyEnumSupport.UpperCaseLetters` | src/main/kotlin/com/novdov/equalityenum/EqualityPropertyEnumSupport.kt:30 | `IsUpperCase` holds exactly for the 26 capital letters `A` to `Z`. `_` is not upper case. |
| `EqualityPropertyEnumSupport.LowercaseChar` | src/main/kotlin/com/novdov/equalityenum/EqualityPropertyEnumSupport.kt:35 | An ASCII upper-case letter maps to its lower-case letter (code point plus 32). Every other character is unchanged. |
| `EqualityPropertyEnumSupport.Lowercase` | src/main/kotlin/com/novdov/equalityenum/EqualityPropertyEnumSupport.kt:35 | Lower-casing keeps the length, maps each character by `LowercaseChar` and leaves no upper-case letter. |
| `EqualityPropertyEnumSupport.IsMemberName` | src/main/kotlin/com/novdov/equalityenum/EqualityPropertyEnumSupport.kt:30 | A name is member-shaped iff every character in it is `A`-`Z` or `_`. The empty name is member-shaped. |
| `EqualityPropertyEnumSupport.IsEnumMember` | src/main/kotlin/com/novdov/equalityenum/EqualityPropertyEnumSupport.kt:29-31 | An attribute with a null name is never a member. One named by the empty string is. A member's name has only `A`-`Z` and `_`. |
| `EqualityPropertyEnumSupport.FilterMembers` | src/main/kotlin/com/novdov/equalityenum/EqualityPropertyEnumSupport.kt:29-31 | The filter never lengthens the list. If the first attribute is a member, it is also the first result. |
| `EqualityPropertyEnumSupport.GetEnumMembers` | src/main/kotlin/com/novdov/equalityenum/EqualityPropertyEnumSupport.kt:28-32 | A class has no more enum members than class attributes. |
| `EqualityPropertyEnumSupport.ToPropertyName` | src/main/kotlin/com/novdov/equalityenum/EqualityPropertyEnumSupport.kt:34-36 | The property name has length `3 + |m|` begins with `is_`, and continues with the lower-cased member name. |
| `EqualityPropertyEnumSupport.IsPropertyName` | src/main/kotlin/com/novdov/equalityenum/EqualityPropertyEnumSupport.kt:38-40 | True exactly when the name has at least three characters and they are `i`, `s`, `_`. So `IS_RED` and `i` are rejected. |
| `EqualityPropertyEnumSupport.PropertyNameIsPropertyShaped` | src/main/kotlin/com/novdov/equalityenum/EqualityPropertyEnumSupport.kt:34-40 | Every name produced by `ToPropertyName` passes `IsPropertyName`. |
| `EqualityPropertyEnumSupport.ToPropertyNameRoundTrip` | src/main/kotlin/com/novdov/equalityenum/EqualityPropertyEnumSupport.kt:34-36 | On a member-shaped name, upper-casing the part after `is_` gives back the member name. |
| `EqualityPropertyEnumSupport.ToPropertyNameInjective` | src/main/kotlin/com/novdov/equalityenum/EqualityPropertyEnumSupport.kt:34-36 | Distinct member names have distinct property names. |
| `InvalidEqualityPropertyAccessInspection.MemberNames` | src/main/kotlin/com/novdov/equalityenum/InvalidEqualityPropertyAccessInspection.kt:33 | Dropping null names never lengthens the list. |
| `InvalidEqualityPropertyAccessInspection.MemberNamesContents` | src/main/kotlin/com/novdov/equalityenum/InvalidEqualityPropertyAccessInspection.kt:33 | A name is in the list iff some member carries exactly that name. |
| `InvalidEqualityPropertyAccessInspection.MemberNamesAppend` | src/main/kotlin/com/novdov/equalityenum/InvalidEqualityPropertyAccessInspection.kt:33 | Dropping null names distributes over concatenation of members, so the names stay in member order. |
| `InvalidEqualityPropertyAccessInspection.ValidPropertyNames` | src/main/kotlin/com/novdov/equalityenum/InvalidEqualityPropertyAccessInspection.kt:33-34 | There is one valid name per named member, and each one passes `IsPropertyName`. |
| `InvalidEqualityPropertyAccessInspection.ValidPropertyNamesAppend` | src/main/kotlin/com/novdov/equalityenum/InvalidEqualityPropertyAccessInspection.kt:33-34 | The valid-name list distributes over concatenation of members, so it is in member order. |
| `InvalidEqualityPropertyAccessInspection.ValidPropertyNamesOfClass` | src/main/kotlin/com/novdov/equalityenum/InvalidEqualityPropertyAccessInspection.kt:32-34 | A name is valid for a class iff it is `ToPropertyName(m)` for some member-shaped attribute name `m` of that class. |
| `InvalidEqualityPropertyAccessInspection.Inspect` | src/main/kotlin/com/novdov/equalityenum/InvalidEqualityPropertyAccessInspection.kt:21-44 | A problem is reported iff all of these hold: the name exists and has the `is_` prefix; the qualifier exists and has a type; the type is a class type with an `EqualityPropertyEnum` ancestor; the name is not a valid name. The message is the one `Message` builds. Absent parts and unclassified types fail open. |
| `InvalidEqualityPropertyAccessInspection.InspectClassified` | src/main/kotlin/com/novdov/equalityenum/InvalidEqualityPropertyAccessInspection.kt:32-43 | Once the prefix and classification checks pass, the access is reported exactly when its name is not in the valid-name list. |
| `InvalidEqualityPropertyAccessInspection.InspectionVisitor.VisitPyReferenceExpression` | src/main/kotlin/com/novdov/equalityenum/InvalidEqualityPropertyAccessInspection.kt:21-44 | Appends to the holder exactly the problem `Inspect` describes (none or one, at the node). Nothing already in the holder changes. |
| `InvalidEqualityPropertyAccessInspection.ProblemsHolder.RegisterProblem` | src/main/kotlin/com/novdov/equalityenum/InvalidEqualityPropertyAccessInspection.kt:37-42 | Registering appends exactly one problem and keeps the earlier ones. |
| `InvalidEqualityPropertyAccessInspection.PropertyNameIsListItem` | src/main/kotlin/com/novdov/equalityenum/InvalidEqualityPropertyAccessInspection.kt:39-41 | A valid name is never empty and never contains a comma, so it stays one item of the `", "`-joined list. |
| `InvalidEqualityPropertyAccessInspection.MessageListsAvailable` | src/main/kotlin/com/novdov/equalityenum/InvalidEqualityPropertyAccessInspection.kt:39-41 | The message begins with its fixed header. Splitting the part after the header at `", "` gives back exactly the valid names, in order. With no members that part is empty. |
| `InvalidEqualityPropertyAccessInspection.ClassNameText` | src/main/kotlin/com/novdov/equalityenum/InvalidEqualityPropertyAccessInspection.kt:39 | A class name is rendered as itself. A missing one is rendered as `null`, as Kotlin interpolates a null string. |
| `InvalidEqualityPropertyAccessInspection.MessageHeader` | src/main/kotlin/com/novdov/equalityenum/InvalidEqualityPropertyAccessInspection.kt:39 | The header begins with `EqualityPropertyEnum`. Its length is the 62 fixed characters plus the rendered class name and the referenced name. |
| `InvalidEqualityPropertyAccessInspection.MessageHeaderLayout` | src/main/kotlin/com/novdov/equalityenum/InvalidEqualityPropertyAccessInspection.kt:39 | The header is the fixed text `EqualityPropertyEnum member '`, the rendered class name, `' has no property '`, the referenced name and `'. Available: `, each at its place. |
| `InvalidEqualityPropertyAccessInspection.Message` | src/main/kotlin/com/novdov/equalityenum/InvalidEqualityPropertyAccessInspection.kt:39-41 | The message begins with the header. With no valid names it is exactly the header. Otherwise the first valid name follows the header directly. |
| `Strings.JoinToString` | src/main/kotlin/com/novdov/equalityenum/InvalidEqualityPropertyAccessInspection.kt:40 | Joining no names gives the empty string. Otherwise the result begins with the first name. |
| `Strings.SplitJoinRoundTrip` | src/main/kotlin/com/novdov/equalityenum/InvalidEqualityPropertyAccessInspection.kt:40 | For non-empty, comma-free names, splitting the joined text at each `", "` gives back the list. The split cuts only at the two-character separator. |
| `EqualityPropertyEnumTypeProvider.GetReferenceType` | src/main/kotlin/com/novdov/equalityenum/EqualityPropertyEnumTypeProvider.kt:12-29 | The provider returns the builtin `bool` type iff all of these hold: the anchor is a qualified expression; its name exists and has the `is_` prefix; its qualifier has a classified class type; the builtin type exists. It never checks that a member matches. In every other case it has no opinion. |
| `EqualityPropertyEnumTypeProvider.FlaggedAccessIsTypedBool` | src/main/kotlin/com/novdov/equalityenum/EqualityPropertyEnumTypeProvider.kt:19-28 | Given the same type facts, every access the inspection flags is still typed `bool`. |
| `EqualityPropertyEnumCompletionContributor.PropertyLookup` | src/main/kotlin/com/novdov/equalityenum/EqualityPropertyEnumCompletionContributor.kt:46-49 | The suggestion inserts the property name. It shows the class name as its type text and a grayed `": bool"` tail. |
| `EqualityPropertyEnumCompletionContributor.Suggestions` | src/main/kotlin/com/novdov/equalityenum/EqualityPropertyEnumCompletionContributor.kt:42-52 | There is one suggestion per valid property name, in order, each built by `PropertyLookup`. |
| `EqualityPropertyEnumCompletionContributor.SuggestionsAppend` | src/main/kotlin/com/novdov/equalityenum/EqualityPropertyEnumCompletionContributor.kt:42-52 | The suggestions for two runs of members are the suggestions for the first run followed by those for the second. |
| `EqualityPropertyEnumCompletionContributor.SuggestionsStep` | src/main/kotlin/com/novdov/equalityenum/EqualityPropertyEnumCompletionContributor.kt:43-51 | One `forEach` step: visiting the next member adds nothing when its name is null (`return@forEach`). Otherwise it adds the lookup for `ToPropertyName` of that name. So the loop builds the suggestions for the same valid-name list the inspection checks against. |
| `EqualityPropertyEnumCompletionContributor.Completions` | src/main/kotlin/com/novdov/equalityenum/EqualityPropertyEnumCompletionContributor.kt:27-52 | There are suggestions only when the parent is a qualified expression whose qualifier has a classified type. |
| `EqualityPropertyEnumCompletionContributor.AddCompletions` | src/main/kotlin/com/novdov/equalityenum/EqualityPropertyEnumCompletionContributor.kt:22-53 | Appends exactly `Completions(parent, context)` to the result set and never removes anything. |
| `EqualityPropertyEnumCompletionContributor.AddSuggestions` | src/main/kotlin/com/novdov/equalityenum/EqualityPropertyEnumCompletionContributor.kt:42-52 | The `forEach` loop appends one suggestion per named member, in member order. The loop invariant is that the elements added so far are the suggestions for the members visited so far. |
| `EqualityPropertyEnumCompletionContributor.CompletionResultSet.AddElement` | src/main/kotlin/com/novdov/equalityenum/EqualityPropertyEnumCompletionContributor.kt:51 | Adding appends exactly one element and keeps the earlier ones. |
| `EqualityPropertyEnumCompletionContributor.CompletionNamesAreValidNames` | src/main/kotlin/com/novdov/equalityenum/EqualityPropertyEnumCompletionContributor.kt:40-49 | On a classified qualifier, the i-th suggestion's text is the inspection's i-th valid name. Its type text is the class name and its tail is a grayed `": bool"`. |
| `EqualityPropertyEnumCompletionContributor.CompletionsAreNeverFlagged` | src/main/kotlin/com/novdov/equalityenum/EqualityPropertyEnumCompletionContributor.kt:44 | Every suggested name passes `IsPropertyName`. The same access with the suggested name is never reported by the inspection. |
| `EqualityPropertyEnumCompletionContributor.CompletionsAreTypedBool` | src/main/kotlin/com/novdov/equalityenum/EqualityPropertyEnumCompletionContributor.kt:42-49 | Every suggested access is typed `bool` by the type provider. |
| `Scenarios.ColorEnumMembers` | src/main/kotlin/com/novdov/equalityenum/EqualityPropertyEnumSupport.kt:28-32 | In `Color`, only `RED` and `BLUE` are members. `helper`, `RED2` and an unnamed attribute are not. |
| `Scenarios.ColorInspectionAccepts` | src/main/kotlin/com/novdov/equalityenum/InvalidEqualityPropertyAccessInspection.kt:22-43 | `is_red` and `is_blue` are accepted. `IS_RED` is skipped, not flagged. |
| `Scenarios.ColorInspectionReports` | src/main/kotlin/com/novdov/equalityenum/InvalidEqualityPropertyAccessInspection.kt:36-43 | `is_green` is reported. The message is the header followed by `is_red, is_blue`. |
| `Scenarios.ColorTypes` | src/main/kotlin/com/novdov/equalityenum/EqualityPropertyEnumTypeProvider.kt:19-28 | `is_green` is typed `bool` although no member matches. `IS_RED` gets no opinion. |
| `Scenarios.ColorCompletion` | src/main/kotlin/com/novdov/equalityenum/EqualityPropertyEnumCompletionContributor.kt:42-52 | Completion on a `Color` value suggests `is_red` then `is_blue`. |
| `Scenarios.FooIsIgnored` | src/main/kotlin/com/novdov/equalityenum/EqualityPropertyEnumSupport.kt:20-26 | A class without the marker ancestor gets no suggestion, no type and no problem. |
| `Scenarios.EmptyEnum` | src/main/kotlin/com/novdov/equalityenum/EqualityPropertyEnumTypeProvider.kt:25-28 | An enum with no members gets no suggestions, but an `is_` access is still typed `bool`. The inspection reports it with an empty `Available: ` list. |

`GetReferenceType` is a Dafny function. Two calls on the same anchor and type facts therefore
give the same answer by construction, so no lemma states it.

## Left out

- Host services become given data, not behaviour. This covers ancestor resolution, the
  class-attribute list, type evaluation and the builtin type cache. `PyClass.ancestorNames` fixes
  the ancestors the host would resolve. `TypeEvalContext` is a fixed map from expressions to types.
  The `bool` type is an optional parameter.
- One context stands for both the analysis context (inspection) and the completion context
  (completion provider). Which one the host uses, and how it caches, is host policy.
- Unicode case mapping is not modelled. Upper case means `A`-`Z` and lower-casing changes only
  those letters. Kotlin's `isUpperCase` and `lowercase` also handle non-ASCII letters.
- Extension registration and pattern matching (`EqualityPropertyEnumCompletionContributor.kt:12-18`)
  are not modelled. Neither are the suggestion's icon (line 47) and the type provider's unused
  `referenceTarget` parameter.
- The internals of the host's problem holder and completion result set are not modelled, beyond
  "append one", and neither is any UI rendering.
- Concurrency between host analysis passes is not modelled. The core holds no shared state.
- `build.gradle.kts` is not modelled: it is build configuration with no logic.
