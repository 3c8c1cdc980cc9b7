/**
  Joining a list of strings with a separator, as the diagnostic message does,
  and the split that recovers the list from the joined text.
 */
module Strings {

  /** The elements of `xs` in order, with `separator` between neighbours. */
  function JoinToString(xs: seq<string>, separator: string): (r: string)
    ensures xs == [] ==> r == ""
    ensures xs != [] ==> xs[0] <= r
  {
    if xs == [] then ""
    else if |xs| == 1 then xs[0]
    else xs[0] + separator + JoinToString(xs[1..], separator)
  }

  /** The position of the first `", "` in `s`, or `|s|` when there is none. */
  ghost function IndexOfSeparator(s: string): (k: nat)
    ensures k <= |s|
    ensures k < |s| ==> k + 2 <= |s| && s[k] == ',' && s[k + 1] == ' '
  {
    if |s| < 2 then |s|
    else if s[0] == ',' && s[1] == ' ' then 0
    else 1 + IndexOfSeparator(s[1..])
  }

  /** Cuts `s` at every `", "`, dropping the separators. */
  ghost function SplitAtSeparators(s: string): seq<string>
    decreases |s|
  {
    var k := IndexOfSeparator(s);
    if k == |s| then [s]
    else [s[..k]] + SplitAtSeparators(s[k + 2..])
  }

  /** Reads a `", "`-joined list back; the empty text is the empty list. */
  ghost function SplitList(s: string): seq<string> {
    if s == "" then [] else SplitAtSeparators(s)
  }

  /** A list element the joined text can be split back into: non-empty, without commas. */
  ghost predicate IsListItem(x: string) {
    x != "" && ',' !in x
  }

  lemma {:induction false} IndexOfSeparatorAfter(x: string, t: string)
    requires ',' !in x && |t| >= 2 && t[0] == ',' && t[1] == ' '
    ensures IndexOfSeparator(x + t) == |x|
  {
    if x != [] {
      assert (x + t)[1..] == x[1..] + t;
      IndexOfSeparatorAfter(x[1..], t);
    } else {
      assert x + t == t;
    }
  }

  lemma {:induction false} IndexOfSeparatorNone(x: string)
    requires ',' !in x
    ensures IndexOfSeparator(x) == |x|
  {
    if |x| >= 2 {
      IndexOfSeparatorNone(x[1..]);
    }
  }

  /** Joining with `", "` loses nothing when no element is empty or holds a comma. */
  lemma {:induction false} SplitJoinRoundTrip(xs: seq<string>)
    requires forall i :: 0 <= i < |xs| ==> IsListItem(xs[i])
    ensures SplitList(JoinToString(xs, ", ")) == xs
  {
    if xs == [] {
    } else if |xs| == 1 {
      IndexOfSeparatorNone(xs[0]);
    } else {
      var x, rest := xs[0], xs[1..];
      var tail := JoinToString(rest, ", ");
      var s := x + ", " + tail;
      assert JoinToString(xs, ", ") == s;
      assert s == x + (", " + tail);
      IndexOfSeparatorAfter(x, ", " + tail);
      assert s[..|x|] == x;
      assert s[|x| + 2..] == tail;
      assert tail != "" by { assert rest[0] <= tail; }
      SplitJoinRoundTrip(rest);
      assert SplitList(s) == [x] + SplitList(tail);
    }
  }
}
