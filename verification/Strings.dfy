/** The string operations that header and query handling rest on. */
module Strings {

  function Lower(c: char): char {
    if 'A' <= c <= 'Z' then c - 'A' + 'a' else c
  }

  function LowerAll(s: string): (r: string)
    ensures |r| == |s|
  {
    seq(|s|, i requires 0 <= i < |s| => Lower(s[i]))
  }

  predicate CaseEqual(a: string, b: string) {
    LowerAll(a) == LowerAll(b)
  }

  predicate IsSpace(c: char) {
    c == ' ' || c == '\t' || c == '\r' || c == '\n' || c == 12 as char
  }

  function TrimFront(s: string): string {
    if s != [] && IsSpace(s[0]) then TrimFront(s[1..]) else s
  }

  function TrimBack(s: string): string {
    if s != [] && IsSpace(s[|s| - 1]) then TrimBack(s[..|s| - 1]) else s
  }

  function Trim(s: string): string {
    TrimBack(TrimFront(s))
  }

  const UPPER := "ABCDEFGHIJKLMNOPQRSTUVWXYZ"
  const LOWER := "abcdefghijklmnopqrstuvwxyz"

  /** Only the letters of ASCII have a case. */
  lemma LowerLetters(c: char)
    ensures forall i :: 0 <= i < 26 ==> Lower(UPPER[i]) == LOWER[i]
    ensures c !in UPPER ==> Lower(c) == c
  {
    if 'A' <= c <= 'Z' {
      assert UPPER[c as int - 'A' as int] == c;
    }
  }

  const SPACES := [' ', '\t', '\r', '\n', 12 as char]

  predicate AllSpaces(s: string) {
    forall i :: 0 <= i < |s| ==> s[i] in SPACES
  }

  lemma {:induction false} TrimFrontMeaning(s: string) returns (front: string)
    ensures s == front + TrimFront(s) && AllSpaces(front)
    ensures TrimFront(s) != "" ==> TrimFront(s)[0] !in SPACES
    decreases |s|
  {
    if s != "" && IsSpace(s[0]) {
      var rest := TrimFrontMeaning(s[1..]);
      front := [s[0]] + rest;
      assert s == [s[0]] + s[1..];
    } else {
      front := "";
    }
  }

  lemma {:induction false} TrimBackMeaning(s: string) returns (back: string)
    ensures s == TrimBack(s) + back && AllSpaces(back)
    ensures TrimBack(s) != "" ==> TrimBack(s)[|TrimBack(s)| - 1] !in SPACES
    decreases |s|
  {
    if s != "" && IsSpace(s[|s| - 1]) {
      var rest := TrimBackMeaning(s[..|s| - 1]);
      back := rest + [s[|s| - 1]];
      assert s == s[..|s| - 1] + [s[|s| - 1]];
    } else {
      back := "";
    }
  }

  /** Trimming takes the blanks off both ends, and no more. */
  lemma TrimMeaning(s: string) returns (front: string, back: string)
    ensures s == front + Trim(s) + back && AllSpaces(front) && AllSpaces(back)
    ensures var t := Trim(s);
            t != "" ==> t[0] !in SPACES && t[|t| - 1] !in SPACES
  {
    front := TrimFrontMeaning(s);
    back := TrimBackMeaning(TrimFront(s));
    assert front + (Trim(s) + back) == front + Trim(s) + back;
  }

  /** Where `c` first is; the length if it is nowhere. */
  function IndexOf(s: string, c: char): (i: nat)
    ensures i <= |s| && (i < |s| ==> s[i] == c)
    ensures forall j :: 0 <= j < i ==> s[j] != c
  {
    if s == [] || s[0] == c then 0 else 1 + IndexOf(s[1..], c)
  }

  lemma IndexOfUnique(s: string, c: char, i: nat)
    requires i <= |s| && (i < |s| ==> s[i] == c) && forall j :: 0 <= j < i ==> s[j] != c
    ensures IndexOf(s, c) == i
  {
  }

  /** The non-empty pieces between separators. */
  function Split(s: string, c: char): seq<string>
    decreases |s|
  {
    if s == [] then []
    else
      var i := IndexOf(s, c);
      (if i == 0 then [] else [s[..i]]) + if i == |s| then [] else Split(s[i + 1..], c)
  }

  lemma Regroup<T>(a: seq<T>, b: seq<T>, c: seq<T>)
    ensures (a + b) + c == a + (b + c)
  {
  }

  lemma IndexOfJoin(head: string, c: char, rest: string)
    requires c !in head
    ensures var s := head + [c] + rest;
            IndexOf(s, c) == |head| && s[..|head|] == head && s[|head| + 1..] == rest
  {
    IndexOfUnique(head + [c] + rest, c, |head|);
  }

  lemma SplitStep(head: string, c: char, rest: string)
    requires c !in head
    ensures Split(head + [c] + rest, c) == (if head == [] then [] else [head]) + Split(rest, c)
  {
    IndexOfJoin(head, c, rest);
  }

  lemma Rejoin(head: string, c: char, rest: string, b: string)
    ensures (head + [c] + rest) + [c] + b == head + [c] + (rest + [c] + b)
  {
  }

  /** A string with a separator, cut at the first. */
  lemma CutAt(s: string, c: char) returns (head: string, rest: string)
    requires c in s
    ensures s == head + [c] + rest && c !in head && |rest| < |s|
    ensures forall x :: x !in s ==> x !in head && x !in rest
  {
    var i := IndexOf(s, c);
    head, rest := s[..i], s[i + 1..];
  }

  lemma SplitWhole(s: string, c: char)
    requires c !in s
    ensures Split(s, c) == if s == [] then [] else [s]
  {
    if s != [] {
      SplitOne(s, c);
    }
  }

  /** A separator between two strings splits them apart. */
  lemma {:induction false} SplitAppend(a: string, c: char, b: string)
    ensures Split(a + [c] + b, c) == Split(a, c) + Split(b, c)
    decreases |a|
  {
    if c in a {
      var head, rest := CutAt(a, c);
      Rejoin(head, c, rest, b);
      SplitAppend(rest, c, b);
      SplitStep(head, c, rest);
      SplitStep(head, c, rest + [c] + b);
      Regroup(if head == [] then [] else [head], Split(rest, c), Split(b, c));
    } else {
      SplitStep(a, c, b);
      SplitWhole(a, c);
    }
  }

  lemma SplitOne(s: string, c: char)
    requires c !in s && s != []
    ensures Split(s, c) == [s]
  {
    IndexOfUnique(s, c, |s|);
    assert s[..|s|] == s;
  }

  method SplitStringPieceToVector(sp: string, separator: char) returns (components: seq<string>)
    ensures components == Split(sp, separator)
  {
    components := [];
    var rest := sp;
    while rest != []
      invariant components + Split(rest, separator) == Split(sp, separator)
      decreases |rest|
    {
      var pos := IndexOf(rest, separator);
      var piece := if pos > 0 then [rest[..pos]] else [];
      var after := if pos == |rest| then [] else rest[pos + 1..];
      assert Split(rest, separator) == piece + Split(after, separator);
      Regroup(components, piece, Split(after, separator));
      components := components + piece;
      rest := after;
    }
  }
}
