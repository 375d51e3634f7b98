/** Replacing a response's Cache-Control by a generated one without loosening what any
    line of it said. */
module CacheControlHeaders {
  import opened Strings

  const CACHE_CONTROL := "Cache-Control"
  const PRIVATE := "private"
  const NO_STORE := "no-store"

  // ----- What a field value limits -----

  datatype Limits = Limits(isPrivate: bool, noStore: bool) {
    /** As strict as both. */
    function With(other: Limits): Limits {
      Limits(isPrivate || other.isPrivate, noStore || other.noStore)
    }
  }

  const NO_LIMITS := Limits(false, false)

  function DirectiveName(element: string): string {
    Trim(element[..IndexOf(element, '=')])
  }

  function LimitOf(element: string): Limits {
    var name := DirectiveName(element);
    if CaseEqual(name, PRIVATE) then Limits(true, false)
    else if CaseEqual(name, NO_STORE) then Limits(false, true)
    else NO_LIMITS
  }

  function LimitsOf(elements: seq<string>): Limits {
    if elements == [] then NO_LIMITS else LimitOf(elements[0]).With(LimitsOf(elements[1..]))
  }

  /** A value states a limit exactly when one of its elements names the directive, with or
      without an argument, in any letter case and with any blanks around it. */
  lemma {:induction false} LimitsMeaning(elements: seq<string>)
    ensures LimitsOf(elements).isPrivate <==> exists e :: e in elements && CaseEqual(DirectiveName(e), PRIVATE)
    ensures LimitsOf(elements).noStore <==> exists e :: e in elements && CaseEqual(DirectiveName(e), NO_STORE)
    decreases |elements|
  {
    if elements != [] {
      LimitsMeaning(elements[1..]);
      assert forall e :: e in elements <==> e == elements[0] || e in elements[1..];
      assert !CaseEqual(PRIVATE, NO_STORE) by {
        assert |LowerAll(PRIVATE)| == 7 && |LowerAll(NO_STORE)| == 8;
      }
    }
  }

  function Noted(value: string): Limits {
    LimitsOf(Split(value, ','))
  }

  function NotedAll(lines: seq<string>): Limits {
    if lines == [] then NO_LIMITS else Noted(lines[0]).With(NotedAll(lines[1..]))
  }

  lemma {:induction false} LimitsAppend(xs: seq<string>, ys: seq<string>)
    ensures LimitsOf(xs + ys) == LimitsOf(xs).With(LimitsOf(ys))
    decreases |xs|
  {
    if xs == [] {
      assert xs + ys == ys;
    } else {
      assert (xs + ys)[0] == xs[0] && (xs + ys)[1..] == xs[1..] + ys;
      LimitsAppend(xs[1..], ys);
    }
  }

  lemma {:induction false} NotedAllAppend(xs: seq<string>, ys: seq<string>)
    ensures NotedAll(xs + ys) == NotedAll(xs).With(NotedAll(ys))
    decreases |xs|
  {
    if xs == [] {
      assert xs + ys == ys;
    } else {
      assert (xs + ys)[0] == xs[0] && (xs + ys)[1..] == xs[1..] + ys;
      NotedAllAppend(xs[1..], ys);
    }
  }

  lemma SpacedName(name: string)
    requires name != [] && forall i :: 0 <= i < |name| ==> name[i] != '=' && !IsSpace(name[i])
    ensures DirectiveName(" " + name) == name
  {
    var element := " " + name;
    IndexOfUnique(element, '=', |element|);
    assert element[..|element|] == element && element[1..] == name;
    assert TrimFront(element) == TrimFront(name) == name;
    assert TrimBack(name) == name;
  }

  lemma TrimmedDirective(directive: string)
    requires directive == PRIVATE || directive == NO_STORE
    ensures ',' !in " " + directive && DirectiveName(" " + directive) == directive
  {
    assert forall i :: 0 <= i < |directive| ==> directive[i] != '=' && directive[i] != ',' && !IsSpace(directive[i]);
    SpacedName(directive);
  }

  /** Appending a directive adds its limit and takes none away. */
  lemma AppendedLimit(value: string, directive: string)
    requires directive == PRIVATE || directive == NO_STORE
    ensures Noted(value + ", " + directive) == Noted(value).With(Limits(directive == PRIVATE, directive == NO_STORE))
  {
    var element := " " + directive;
    TrimmedDirective(directive);
    assert value + ", " + directive == value + [','] + element;
    SplitAppend(value, ',', element);
    SplitOne(element, ',');
    LimitsAppend(Split(value, ','), [element]);
    assert [element][1..] == [];
    assert CaseEqual(directive, PRIVATE) <==> directive == PRIVATE by {
      assert |LowerAll(PRIVATE)| == 7 && |LowerAll(NO_STORE)| == 8;
    }
  }

  method NoteCacheControlLimits(fieldValue: string, limits: Limits) returns (noted: Limits)
    ensures noted == limits.With(Noted(fieldValue))
  {
    noted := limits;
    var elements := SplitStringPieceToVector(fieldValue, ',');
    var i := 0;
    while i < |elements|
      invariant 0 <= i <= |elements|
      invariant noted.With(LimitsOf(elements[i..])) == limits.With(LimitsOf(elements))
    {
      assert elements[i..][1..] == elements[i + 1..];
      var element := elements[i];
      var name := Trim(element[..IndexOf(element, '=')]);
      if CaseEqual(name, PRIVATE) {
        noted := noted.(isPrivate := true);
      } else if CaseEqual(name, NO_STORE) {
        noted := noted.(noStore := true);
      }
      i := i + 1;
    }
  }

  method NoteAllLimits(lines: seq<string>) returns (stated: Limits)
    ensures stated == NotedAll(lines)
  {
    stated := NO_LIMITS;
    var i := 0;
    while i < |lines|
      invariant 0 <= i <= |lines|
      invariant stated.With(NotedAll(lines[i..])) == NotedAll(lines)
    {
      assert lines[i..][1..] == lines[i + 1..];
      stated := NoteCacheControlLimits(lines[i], stated);
      i := i + 1;
    }
    assert lines[i..] == [];
  }

  // ----- Header tables -----

  datatype Field = Field(name: string, value: string)

  function Lines(table: seq<Field>): seq<string> {
    if table == [] then []
    else (if CaseEqual(table[0].name, CACHE_CONTROL) then [table[0].value] else []) + Lines(table[1..])
  }

  /** The table without its Cache-Control lines. */
  function Others(table: seq<Field>): seq<Field> {
    if table == [] then []
    else (if CaseEqual(table[0].name, CACHE_CONTROL) then [] else [table[0]]) + Others(table[1..])
  }

  /** apr_table_set: the first line gets the value, further lines go, and a table without
      one gets one at its end. */
  function Set(table: seq<Field>, value: string): seq<Field> {
    if table == [] then [Field(CACHE_CONTROL, value)]
    else if CaseEqual(table[0].name, CACHE_CONTROL) then [table[0].(value := value)] + Others(table[1..])
    else [table[0]] + Set(table[1..], value)
  }

  /** What is collected is the value of every Cache-Control field, in any letter case. */
  lemma {:induction false} LinesMeaning(table: seq<Field>, value: string)
    ensures value in Lines(table) <==>
              exists i :: 0 <= i < |table| && CaseEqual(table[i].name, "Cache-Control") && table[i].value == value
    decreases |table|
  {
    if table != [] {
      LinesMeaning(table[1..], value);
      assert forall i :: 1 <= i < |table| ==> table[i] == table[1..][i - 1];
    }
  }

  /** And what is left over are all the other fields, each as often as before. */
  lemma {:induction false} OthersMeaning(table: seq<Field>, f: Field)
    ensures multiset(Others(table))[f] == if CaseEqual(f.name, "Cache-Control") then 0 else multiset(table)[f]
    decreases |table|
  {
    if table != [] {
      var head, rest := table[0], table[1..];
      OthersMeaning(rest, f);
      assert table == [head] + rest;
      assert multiset(table)[f] == (if head == f then 1 else 0) + multiset(rest)[f];
    }
  }

  lemma {:induction false} OthersHasNone(table: seq<Field>)
    ensures Lines(Others(table)) == [] && Others(Others(table)) == Others(table)
    decreases |table|
  {
    if table != [] {
      OthersHasNone(table[1..]);
      if !CaseEqual(table[0].name, CACHE_CONTROL) {
        assert ([table[0]] + Others(table[1..]))[1..] == Others(table[1..]);
      } else {
        assert [] + Others(table[1..]) == Others(table[1..]);
      }
    }
  }

  /** One Cache-Control line, with the value, and every other line in its place. */
  lemma {:induction false} SetMeaning(table: seq<Field>, value: string)
    ensures Lines(Set(table, value)) == [value] && Others(Set(table, value)) == Others(table)
    decreases |table|
  {
    var q := Set(table, value);
    if table == [] {
      assert q[1..] == [];
    } else if CaseEqual(table[0].name, CACHE_CONTROL) {
      OthersHasNone(table[1..]);
      assert q[1..] == Others(table[1..]);
    } else {
      SetMeaning(table[1..], value);
      assert q[1..] == Set(table[1..], value);
    }
  }

  function MergedValue(generated: string, stated: Limits): string {
    var kept := Noted(generated);
    var v := if stated.isPrivate && !kept.isPrivate then generated + ", " + PRIVATE else generated;
    if stated.noStore && !kept.noStore then v + ", " + NO_STORE else v
  }

  lemma MergedLimits(generated: string, stated: Limits)
    ensures Noted(MergedValue(generated, stated)) == Noted(generated).With(stated)
  {
    var kept := Noted(generated);
    var v := if stated.isPrivate && !kept.isPrivate then generated + ", " + PRIVATE else generated;
    AppendedLimit(generated, PRIVATE);
    AppendedLimit(v, NO_STORE);
  }

  /** A directive is appended only if the generated value does not state it already. */
  lemma MergedAddsMissingOnly(generated: string, stated: Limits)
    ensures MergedValue(generated, stated) == generated <==> Noted(generated).With(stated) == Noted(generated)
    ensures var added := |MergedValue(generated, stated)| - |generated|;
            var kept := Noted(generated);
            added == (if stated.isPrivate && !kept.isPrivate then |", private"| else 0)
                   + if stated.noStore && !kept.noStore then |", no-store"| else 0
  {
    MergedLimits(generated, stated);
    var kept := Noted(generated);
    if stated.isPrivate && !kept.isPrivate {
      assert kept.With(stated) != kept;
    }
    if stated.noStore && !kept.noStore {
      AppendedLimit(generated, PRIVATE);
      assert kept.With(stated) != kept;
    }
  }

  class RequestRec {
    var headersOut: seq<Field>
    var errHeadersOut: seq<Field>

    constructor (headersOut: seq<Field>, errHeadersOut: seq<Field>)
      ensures this.headersOut == headersOut && this.errHeadersOut == errHeadersOut
    {
      this.headersOut, this.errHeadersOut := headersOut, errHeadersOut;
    }

    /** The response ends with exactly one Cache-Control line, as strict as the generated
        value and every line of either table before; nothing else changes. */
    method DisableCacheControlHeader(generated: string)
      modifies this
      ensures Lines(errHeadersOut) == [] && Others(errHeadersOut) == old(Others(errHeadersOut))
      ensures |Lines(headersOut)| == 1 && Others(headersOut) == old(Others(headersOut))
      ensures Noted(Lines(headersOut)[0])
           == Noted(generated).With(old(NotedAll(Lines(errHeadersOut)))).With(old(NotedAll(Lines(headersOut))))
      ensures generated <= Lines(headersOut)[0]
    {
      NotedAllAppend(Lines(errHeadersOut), Lines(headersOut));
      var stated := NoteAllLimits(Lines(errHeadersOut) + Lines(headersOut));
      var kept := NoteCacheControlLimits(generated, NO_LIMITS);
      var value := generated;
      if stated.isPrivate && !kept.isPrivate {
        value := value + ", " + PRIVATE;
      }
      if stated.noStore && !kept.noStore {
        value := value + ", " + NO_STORE;
      }
      MergedLimits(generated, stated);
      OthersHasNone(errHeadersOut);
      SetMeaning(headersOut, value);
      errHeadersOut := Others(errHeadersOut);
      headersOut := Set(headersOut, value);
    }
  }
}
