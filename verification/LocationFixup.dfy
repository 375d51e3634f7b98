/** Re-adding our query parameters to a redirect's Location. */
module LocationFixing {
  import opened Strings

  // ----- Query parameters -----

  datatype Value = NoValue | Value(text: string)

  datatype Param = Param(name: string, value: Value)

  function ParsePair(pair: string): Param {
    var i := IndexOf(pair, '=');
    if i < |pair| then Param(pair[..i], Value(pair[i + 1..])) else Param(pair, NoValue)
  }

  function ParsePairs(pairs: seq<string>): seq<Param> {
    if pairs == [] then [] else [ParsePair(pairs[0])] + ParsePairs(pairs[1..])
  }

  function Parse(query: string): seq<Param> {
    ParsePairs(Split(query, '&'))
  }

  function PairText(p: Param): string {
    match p.value
    case NoValue => p.name
    case Value(text) => p.name + ['='] + text
  }

  function Text(params: seq<Param>): string {
    if params == [] then ""
    else if |params| == 1 then PairText(params[0])
    else PairText(params[0]) + "&" + Text(params[1..])
  }

  /** A parameter as a parser leaves it. */
  predicate Clean(p: Param) {
    && '=' !in p.name && PairText(p) != ""
    && '&' !in PairText(p) && '#' !in PairText(p)
  }

  predicate AllClean(params: seq<Param>) {
    forall i :: 0 <= i < |params| ==> Clean(params[i])
  }

  lemma {:induction false} ParsePairsAppend(xs: seq<string>, ys: seq<string>)
    ensures ParsePairs(xs + ys) == ParsePairs(xs) + ParsePairs(ys)
    decreases |xs|
  {
    if xs == [] {
      assert xs + ys == ys;
    } else {
      assert (xs + ys)[0] == xs[0] && (xs + ys)[1..] == xs[1..] + ys;
      ParsePairsAppend(xs[1..], ys);
    }
  }

  lemma ParseAppend(a: string, b: string)
    ensures Parse(a + "&" + b) == Parse(a) + Parse(b)
  {
    SplitAppend(a, '&', b);
    assert a + "&" + b == a + ['&'] + b;
    ParsePairsAppend(Split(a, '&'), Split(b, '&'));
  }

  lemma ParsePairText(p: Param)
    requires Clean(p)
    ensures ParsePair(PairText(p)) == p
  {
    match p.value
    case NoValue => IndexOfUnique(p.name, '=', |p.name|);
    case Value(text) => IndexOfJoin(p.name, '=', text);
  }

  lemma ParseOne(p: Param)
    requires Clean(p)
    ensures Parse(PairText(p)) == [p]
  {
    SplitOne(PairText(p), '&');
    ParsePairText(p);
    assert ParsePairs([PairText(p)]) == [ParsePair(PairText(p))];
  }

  /** Parsing gives back what was written out. */
  lemma {:induction false} ParseText(params: seq<Param>)
    requires AllClean(params)
    ensures Parse(Text(params)) == params
    decreases |params|
  {
    if |params| == 1 {
      ParseOne(params[0]);
    } else if params != [] {
      ParseOne(params[0]);
      ParseText(params[1..]);
      ParseAppend(PairText(params[0]), Text(params[1..]));
    }
  }

  lemma {:induction false} TextHasNoHash(params: seq<Param>)
    requires AllClean(params)
    ensures '#' !in Text(params) && (params != [] ==> Text(params) != "")
    decreases |params|
  {
    if |params| > 1 {
      TextHasNoHash(params[1..]);
    }
  }

  lemma {:induction false} SplitParts(s: string, c: char, piece: string, other: char)
    requires piece in Split(s, c) && other !in s
    ensures piece != "" && c !in piece && other !in piece
    decreases |s|
  {
    if c in s {
      var head, rest := CutAt(s, c);
      SplitStep(head, c, rest);
      if piece in Split(rest, c) {
        SplitParts(rest, c, piece, other);
      }
    } else {
      SplitWhole(s, c);
    }
  }

  lemma PairClean(pair: string)
    requires pair != "" && '&' !in pair && '#' !in pair
    ensures Clean(ParsePair(pair)) && PairText(ParsePair(pair)) == pair
  {
    var i := IndexOf(pair, '=');
    if i < |pair| {
      assert pair == pair[..i] + ['='] + pair[i + 1..];
    }
  }

  lemma {:induction false} PairsClean(pairs: seq<string>)
    requires forall i :: 0 <= i < |pairs| ==> pairs[i] != "" && '&' !in pairs[i] && '#' !in pairs[i]
    ensures AllClean(ParsePairs(pairs))
    decreases |pairs|
  {
    if pairs != [] {
      PairClean(pairs[0]);
      PairsClean(pairs[1..]);
    }
  }

  lemma ParseClean(query: string)
    requires '#' !in query
    ensures AllClean(Parse(query))
  {
    var pairs := Split(query, '&');
    forall i | 0 <= i < |pairs|
      ensures pairs[i] != "" && '&' !in pairs[i] && '#' !in pairs[i]
    {
      SplitParts(query, '&', pairs[i], '#');
    }
    PairsClean(pairs);
  }

  // ----- Names that select the same setting -----

  const CLIENT_OPTIONS := "X-PSA-Client-Options"
  const CACHE_CONTROL := "Cache-Control"
  const MOD_PAGESPEED := "ModPagespeed"
  const PAGESPEED := "PageSpeed"

  function OptionKey(option: string): string {
    if option == "" || option == "Filters" then "e:" + option else "o:" + LowerAll(option)
  }

  function ParamKey(name: string): string {
    if CaseEqual(name, CLIENT_OPTIONS) then "h:" + CLIENT_OPTIONS
    else if CaseEqual(name, CACHE_CONTROL) then "h:" + CACHE_CONTROL
    else if MOD_PAGESPEED <= name then OptionKey(name[|MOD_PAGESPEED|..])
    else if PAGESPEED <= name then OptionKey(name[|PAGESPEED|..])
    else ""
  }

  predicate SameName(ours: string, theirs: string) {
    ours == theirs || (ParamKey(ours) != "" && ParamKey(ours) == ParamKey(theirs))
  }

  lemma SameNameIsEquivalence(a: string, b: string, c: string)
    ensures SameName(a, a)
    ensures SameName(a, b) <==> SameName(b, a)
    ensures SameName(a, b) && SameName(b, c) ==> SameName(a, c)
  {
  }

  /** Besides names with our prefixes, the names of two headers select one setting each in
      any letter case, and any other name only itself. */
  lemma OtherNames(a: string, b: string)
    requires !(PAGESPEED <= a) && !(MOD_PAGESPEED <= a)
    ensures CaseEqual(a, "X-PSA-Client-Options") ==> (SameName(a, b) <==> CaseEqual(b, "X-PSA-Client-Options"))
    ensures CaseEqual(a, "Cache-Control") ==> (SameName(a, b) <==> CaseEqual(b, "Cache-Control"))
    ensures !CaseEqual(a, "X-PSA-Client-Options") && !CaseEqual(a, "Cache-Control") ==> (SameName(a, b) <==> a == b)
  {
    HeaderKeysDiffer();
    var key := ParamKey(b);
    assert key != "" && key[0] != 'h' ==> key[0] == 'e' || key[0] == 'o';
  }

  lemma HeaderKeysDiffer()
    ensures !CaseEqual(CLIENT_OPTIONS, CACHE_CONTROL) && "h:" + CLIENT_OPTIONS != "h:" + CACHE_CONTROL
    ensures ("h:" + CLIENT_OPTIONS)[0] == 'h' && ("h:" + CACHE_CONTROL)[0] == 'h'
  {
    assert |LowerAll(CLIENT_OPTIONS)| == 20 && |LowerAll(CACHE_CONTROL)| == 13;
    assert |"h:" + CLIENT_OPTIONS| == 22 && |"h:" + CACHE_CONTROL| == 15;
  }

  function IsOneOf(params: seq<Param>, name: string): bool {
    params != [] && (SameName(params[0].name, name) || IsOneOf(params[1..], name))
  }

  lemma {:induction false} IsOneOfMeaning(params: seq<Param>, name: string)
    ensures IsOneOf(params, name) <==> exists i :: 0 <= i < |params| && SameName(params[i].name, name)
    decreases |params|
  {
    if params != [] {
      IsOneOfMeaning(params[1..], name);
      assert forall i :: 1 <= i < |params| ==> params[i] == params[1..][i - 1];
    }
  }

  method IsOneOfOurParams(ours: seq<Param>, name: string) returns (found: bool)
    ensures found == IsOneOf(ours, name)
  {
    var i := 0;
    while i < |ours|
      invariant 0 <= i <= |ours| && IsOneOf(ours, name) == IsOneOf(ours[i..], name)
    {
      if SameName(ours[i].name, name) {
        return true;
      }
      assert ours[i..][1..] == ours[i + 1..];
      i := i + 1;
    }
    return false;
  }

  // ----- The order that queries are compared in -----

  predicate LexLe(a: string, b: string) {
    if a == "" then true
    else if b == "" then false
    else if a[0] != b[0] then a[0] < b[0]
    else LexLe(a[1..], b[1..])
  }

  lemma {:induction false} LexOrder(a: string, b: string)
    ensures LexLe(a, a) && (LexLe(a, b) || LexLe(b, a))
    ensures LexLe(a, b) && LexLe(b, a) ==> a == b
    decreases |a|
  {
    if a != "" {
      if b == "" {
        LexOrder(a[1..], a[1..]);
      } else {
        LexOrder(a[1..], b[1..]);
      }
    }
  }

  lemma {:induction false} LexTransitive(a: string, b: string, c: string)
    requires LexLe(a, b) && LexLe(b, c)
    ensures LexLe(a, c)
    decreases |a|
  {
    if a != "" && b != "" && c != "" && a[0] == b[0] == c[0] {
      LexTransitive(a[1..], b[1..], c[1..]);
    }
  }

  datatype Pair = Pair(name: string, value: string)

  predicate PairLe(p: Pair, q: Pair) {
    if p.name == q.name then LexLe(p.value, q.value) else LexLe(p.name, q.name)
  }

  lemma PairOrder(p: Pair, q: Pair)
    ensures PairLe(p, p) && (PairLe(p, q) || PairLe(q, p))
    ensures PairLe(p, q) && PairLe(q, p) ==> p == q
  {
    LexOrder(p.name, q.name);
    LexOrder(p.value, q.value);
  }

  lemma PairTransitive(p: Pair, q: Pair, r: Pair)
    requires PairLe(p, q) && PairLe(q, r)
    ensures PairLe(p, r)
  {
    if p.name == q.name == r.name {
      LexTransitive(p.value, q.value, r.value);
    } else if p.name != q.name && q.name != r.name {
      LexTransitive(p.name, q.name, r.name);
      LexOrder(p.name, q.name);
    }
  }

  predicate Sorted(s: seq<Pair>) {
    forall i, j :: 0 <= i < j < |s| ==> PairLe(s[i], s[j])
  }

  function Insert(p: Pair, s: seq<Pair>): seq<Pair> {
    if s == [] || PairLe(p, s[0]) then [p] + s else [s[0]] + Insert(p, s[1..])
  }

  function Sort(s: seq<Pair>): seq<Pair> {
    if s == [] then [] else Insert(s[0], Sort(s[1..]))
  }

  lemma SortedCons(p: Pair, s: seq<Pair>)
    requires Sorted(s) && forall j :: 0 <= j < |s| ==> PairLe(p, s[j])
    ensures Sorted([p] + s)
  {
  }

  lemma InsertElements(p: Pair, s: seq<Pair>, least: Pair)
    requires multiset(Insert(p, s)) == multiset{p} + multiset(s)
    requires PairLe(least, p) && forall j :: 0 <= j < |s| ==> PairLe(least, s[j])
    ensures forall j :: 0 <= j < |Insert(p, s)| ==> PairLe(least, Insert(p, s)[j])
  {
    var all := Insert(p, s);
    forall j | 0 <= j < |all|
      ensures PairLe(least, all[j])
    {
      assert all[j] in multiset(all);
      assert all[j] == p || all[j] in s;
    }
  }

  lemma {:induction false} InsertSorts(p: Pair, s: seq<Pair>)
    requires Sorted(s)
    ensures Sorted(Insert(p, s)) && multiset(Insert(p, s)) == multiset{p} + multiset(s)
    decreases |s|
  {
    if s == [] {
    } else if PairLe(p, s[0]) {
      forall j | 0 <= j < |s|
        ensures PairLe(p, s[j])
      {
        if j > 0 {
          PairTransitive(p, s[0], s[j]);
        }
      }
      SortedCons(p, s);
    } else {
      InsertSorts(p, s[1..]);
      assert s == [s[0]] + s[1..];
      PairOrder(p, s[0]);
      InsertElements(p, s[1..], s[0]);
      SortedCons(s[0], Insert(p, s[1..]));
    }
  }

  lemma {:induction false} SortSorts(s: seq<Pair>)
    ensures Sorted(Sort(s)) && multiset(Sort(s)) == multiset(s)
    decreases |s|
  {
    if s != [] {
      SortSorts(s[1..]);
      InsertSorts(s[0], Sort(s[1..]));
      assert s == [s[0]] + s[1..];
    }
  }

  lemma FirstIsLeast(s: seq<Pair>, p: Pair)
    requires Sorted(s) && p in s
    ensures PairLe(s[0], p)
  {
    PairOrder(p, p);
  }

  lemma RestOf(s: seq<Pair>)
    requires s != []
    ensures multiset(s[1..]) == multiset(s) - multiset{s[0]}
    ensures Sorted(s) ==> Sorted(s[1..])
  {
    assert s == [s[0]] + s[1..];
  }

  lemma SameFirst(s: seq<Pair>, t: seq<Pair>)
    requires Sorted(s) && Sorted(t) && multiset(s) == multiset(t) && s != []
    ensures t != [] && s[0] == t[0]
  {
    assert s[0] in multiset(t);
    assert t[0] in multiset(s);
    FirstIsLeast(s, t[0]);
    FirstIsLeast(t, s[0]);
    PairOrder(s[0], t[0]);
  }

  lemma {:induction false} SortedUnique(s: seq<Pair>, t: seq<Pair>)
    requires Sorted(s) && Sorted(t) && multiset(s) == multiset(t)
    ensures s == t
    decreases |s|
  {
    if s == [] {
      assert |multiset(s)| == |s| && |multiset(t)| == |t|;
    } else {
      SameFirst(s, t);
      RestOf(s);
      RestOf(t);
      SortedUnique(s[1..], t[1..]);
      assert s == [s[0]] + s[1..] && t == [t[0]] + t[1..];
    }
  }

  // ----- The canonical test -----

  datatype Query = NoQuery | Query(text: string)

  /** The parameters that are not ours, unescaped; one without a value has an empty one. */
  function Decoded(params: seq<Param>, ours: seq<Param>, unescape: string -> string): seq<Pair> {
    if params == [] then []
    else
      var p := params[0];
      (if IsOneOf(ours, p.name) then []
       else [Pair(unescape(p.name), if p.value.NoValue? then "" else unescape(p.value.text))])
      + Decoded(params[1..], ours, unescape)
  }

  function ParamsOf(q: Query): seq<Param> {
    if q.NoQuery? then [] else Parse(q.text)
  }

  function Normalized(q: Query, ours: seq<Param>, unescape: string -> string): seq<Pair> {
    Sort(Decoded(ParamsOf(q), ours, unescape))
  }

  /** Two queries are alike exactly when they hold the same decoded parameters besides
      ours, each as often, in any order. */
  lemma AlikeMeaning(q: Query, r: Query, ours: seq<Param>, unescape: string -> string)
    ensures Normalized(q, ours, unescape) == Normalized(r, ours, unescape)
       <==> multiset(Decoded(ParamsOf(q), ours, unescape)) == multiset(Decoded(ParamsOf(r), ours, unescape))
  {
    SortSorts(Decoded(ParamsOf(q), ours, unescape));
    SortSorts(Decoded(ParamsOf(r), ours, unescape));
    if multiset(Decoded(ParamsOf(q), ours, unescape)) == multiset(Decoded(ParamsOf(r), ours, unescape)) {
      SortedUnique(Normalized(q, ours, unescape), Normalized(r, ours, unescape));
    }
  }

  // ----- What the canonical test compares -----

  /** A parameter that none of ours selects the same setting as, and that stands for the
      name and the value when they are unescaped, no value for an empty one. */
  predicate StandsFor(p: Param, ours: seq<Param>, unescape: string -> string, pair: Pair) {
    && (forall i :: 0 <= i < |ours| ==> !SameName(ours[i].name, p.name))
    && unescape(p.name) == pair.name
    && match p.value case NoValue => pair.value == "" case Value(text) => pair.value == unescape(text)
  }

  /** Where in a query a pair stands. */
  function Places(params: seq<Param>, ours: seq<Param>, unescape: string -> string, pair: Pair): set<nat> {
    set i: nat | i < |params| && StandsFor(params[i], ours, unescape, pair)
  }

  lemma {:induction false} DecodedAppend(xs: seq<Param>, ys: seq<Param>, ours: seq<Param>, unescape: string -> string)
    ensures Decoded(xs + ys, ours, unescape) == Decoded(xs, ours, unescape) + Decoded(ys, ours, unescape)
    decreases |xs|
  {
    if xs == [] {
      assert xs + ys == ys;
    } else {
      assert (xs + ys)[0] == xs[0] && (xs + ys)[1..] == xs[1..] + ys;
      DecodedAppend(xs[1..], ys, ours, unescape);
    }
  }

  lemma DecodedOne(p: Param, ours: seq<Param>, unescape: string -> string, pair: Pair)
    ensures multiset(Decoded([p], ours, unescape))[pair] == if StandsFor(p, ours, unescape, pair) then 1 else 0
  {
    assert [p][1..] == [];
    IsOneOfMeaning(ours, p.name);
  }

  lemma PlacesPush(params: seq<Param>, p: Param, ours: seq<Param>, unescape: string -> string, pair: Pair)
    ensures |Places(params + [p], ours, unescape, pair)|
         == |Places(params, ours, unescape, pair)| + if StandsFor(p, ours, unescape, pair) then 1 else 0
  {
    var before := Places(params, ours, unescape, pair);
    var all := params + [p];
    assert forall i: nat :: i < |params| ==> all[i] == params[i];
    assert Places(all, ours, unescape, pair)
        == before + if StandsFor(p, ours, unescape, pair) then {|params| as nat} else {};
  }

  lemma {:induction false} DecodedCounts(params: seq<Param>, ours: seq<Param>, unescape: string -> string, pair: Pair)
    ensures multiset(Decoded(params, ours, unescape))[pair] == |Places(params, ours, unescape, pair)|
    decreases |params|
  {
    if params == [] {
      assert Places(params, ours, unescape, pair) == {};
    } else {
      var front, last := params[..|params| - 1], params[|params| - 1];
      assert params == front + [last];
      DecodedCounts(front, ours, unescape, pair);
      DecodedAppend(front, [last], ours, unescape);
      DecodedOne(last, ours, unescape, pair);
      PlacesPush(front, last, ours, unescape, pair);
    }
  }

  /** Two queries hold the same parameters besides ours: every decoded name and value stands
      as often in the one as in the other. */
  ghost predicate SameParameters(q: Query, r: Query, ours: seq<Param>, unescape: string -> string) {
    forall pair: Pair ::
      |Places(ParamsOf(q), ours, unescape, pair)| == |Places(ParamsOf(r), ours, unescape, pair)|
  }

  lemma NormalizedCounts(q: Query, ours: seq<Param>, unescape: string -> string, pair: Pair)
    ensures multiset(Normalized(q, ours, unescape))[pair] == |Places(ParamsOf(q), ours, unescape, pair)|
  {
    SortSorts(Decoded(ParamsOf(q), ours, unescape));
    DecodedCounts(ParamsOf(q), ours, unescape, pair);
  }

  lemma AlikeExactly(q: Query, r: Query, ours: seq<Param>, unescape: string -> string)
    ensures Normalized(q, ours, unescape) == Normalized(r, ours, unescape) <==> SameParameters(q, r, ours, unescape)
  {
    var one, other := Decoded(ParamsOf(q), ours, unescape), Decoded(ParamsOf(r), ours, unescape);
    forall pair: Pair
      ensures multiset(one)[pair] == |Places(ParamsOf(q), ours, unescape, pair)|
      ensures multiset(other)[pair] == |Places(ParamsOf(r), ours, unescape, pair)|
    {
      DecodedCounts(ParamsOf(q), ours, unescape, pair);
      DecodedCounts(ParamsOf(r), ours, unescape, pair);
    }
    AlikeMeaning(q, r, ours, unescape);
    assert SameParameters(q, r, ours, unescape) ==> multiset(one) == multiset(other);
    if multiset(one) == multiset(other) {
      forall pair: Pair
        ensures |Places(ParamsOf(q), ours, unescape, pair)| == |Places(ParamsOf(r), ours, unescape, pair)|
      {
        assert multiset(one)[pair] == multiset(other)[pair];
      }
    }
  }

  method NormalizedQueryWithoutOurs(q: Query, ours: seq<Param>, unescape: string -> string) returns (result: seq<Pair>)
    ensures result == Normalized(q, ours, unescape)
  {
    result := [];
    var rest := ParamsOf(q);
    while rest != []
      invariant result + Decoded(rest, ours, unescape) == Decoded(ParamsOf(q), ours, unescape)
      decreases |rest|
    {
      var p := rest[0];
      var skip := IsOneOfOurParams(ours, p.name);
      var value := if p.value.NoValue? then "" else unescape(p.value.text);
      var kept := if skip then [] else [Pair(unescape(p.name), value)];
      Regroup(result, kept, Decoded(rest[1..], ours, unescape));
      result := result + kept;
      rest := rest[1..];
    }
    assert result + Decoded(rest, ours, unescape) == result;
    result := Sort(result);
  }

  // ----- Resolving a Location -----

  /** The URL without its query and fragment, and its scheme, host and port. */
  datatype Url = Url(front: string, origin: string, query: Query)

  /** A reference's text before its query or fragment, its own query, and the fragment
      with its '#'. */
  datatype Reference = Reference(path: string, query: Query, fragment: string)

  function TakeBody(body: string, fragment: string): Reference {
    var q := IndexOf(body, '?');
    Reference(body[..q], if q < |body| then Query(body[q + 1..]) else NoQuery, fragment)
  }

  function Take(loc: string): Reference {
    var hash := IndexOf(loc, '#');
    TakeBody(loc[..hash], loc[hash..])
  }

  datatype Place = Nowhere | Place(front: string, origin: string)

  datatype Target = NoTarget | Target(url: Url)

  /** A reference without a path keeps the base's, and without a query of its own the
      base's query too (RFC 3986, section 5.2.2). `place` says where a path leads. */
  function Resolve(base: Url, loc: string, place: string -> Place): Target {
    var r := Take(loc);
    if r.path == "" then Target(base.(query := if r.query.NoQuery? then base.query else r.query))
    else match place(r.path)
      case Nowhere => NoTarget
      case Place(front, origin) => Target(Url(front, origin, r.query))
  }

  // ----- The fix-up -----

  function Missing(ours: seq<Param>, theirs: seq<Param>): seq<Param> {
    if ours == [] then []
    else (if IsOneOf(theirs, ours[0].name) then [] else [ours[0]]) + Missing(ours[1..], theirs)
  }

  predicate Canonicalising(base: Url, target: Url, ours: seq<Param>, unescape: string -> string) {
    base.front == target.front && Normalized(base.query, ours, unescape) == Normalized(target.query, ours, unescape)
  }

  function Inserted(loc: string, separator: string, text: string): string {
    var hash := IndexOf(loc, '#');
    loc[..hash] + separator + text + loc[hash..]
  }

  /** Our parameters, as they are parsed from a string nobody vouches for: up to a '#'. */
  function OurParams(untrusted: string): seq<Param> {
    Parse(untrusted[..IndexOf(untrusted, '#')])
  }

  function FixUp(base: Url, loc: string, ours: seq<Param>, place: string -> Place, unescape: string -> string): string {
    match Resolve(base, loc, place)
    case NoTarget => loc
    case Target(target) =>
      if base.origin != target.origin || Canonicalising(base, target, ours, unescape) then loc
      else
        var missing := Text(Missing(ours, ParamsOf(target.query)));
        if missing == "" then loc else Inserted(loc, if target.query.NoQuery? then "?" else "&", missing)
  }

  lemma {:induction false} MissingParts(ours: seq<Param>, theirs: seq<Param>)
    ensures AllClean(ours) ==> AllClean(Missing(ours, theirs))
    ensures forall i :: 0 <= i < |ours| && !IsOneOf(theirs, ours[i].name) ==> ours[i] in Missing(ours, theirs)
    ensures forall p :: p in Missing(ours, theirs) ==> p in ours && !IsOneOf(theirs, p.name)
    decreases |ours|
  {
    if ours != [] {
      MissingParts(ours[1..], theirs);
      assert forall i :: 1 <= i < |ours| ==> ours[i] == ours[1..][i - 1];
    }
  }

  lemma FragmentAt(body: string, fragment: string)
    requires '#' !in body && (fragment != "" ==> fragment[0] == '#')
    ensures Take(body + fragment) == TakeBody(body, fragment)
  {
    var loc := body + fragment;
    assert forall j :: 0 <= j < |body| ==> loc[j] == body[j];
    IndexOfUnique(loc, '#', |body|);
    assert loc[..|body|] == body && loc[|body|..] == fragment;
  }

  /** A query's place in the text before the fragment. */
  lemma QueryGrows(body: string, text: string)
    ensures var q := IndexOf(body, '?');
            var longer := body + (if q == |body| then "?" else "&") + text;
            && IndexOf(longer, '?') == q && longer[..q] == body[..q] && q < |longer|
            && longer[q + 1..] == if q == |body| then text else body[q + 1..] + "&" + text
  {
    var q := IndexOf(body, '?');
    if q == |body| {
      IndexOfJoin(body, '?', text);
    } else {
      var path, query := body[..q], body[q + 1..];
      assert body == path + ['?'] + query;
      IndexOfJoin(path, '?', query + "&" + text);
      assert body + "&" + text == path + ['?'] + (query + "&" + text);
    }
  }

  lemma NoHashBefore(loc: string, separator: string, text: string)
    requires '#' !in separator && '#' !in text
    ensures '#' !in loc[..IndexOf(loc, '#')] + separator + text
  {
  }

  /** What is inserted goes to the end of the query, before any fragment. */
  lemma InsertedParts(loc: string, text: string)
    requires '#' !in text
    ensures var r := Take(loc);
            var s := Take(Inserted(loc, if r.query.NoQuery? then "?" else "&", text));
            && s.path == r.path && s.fragment == r.fragment
            && s.query == Query(if r.query.NoQuery? then text else r.query.text + "&" + text)
  {
    var hash := IndexOf(loc, '#');
    var body, fragment := loc[..hash], loc[hash..];
    var separator := if Take(loc).query.NoQuery? then "?" else "&";
    NoHashBefore(loc, separator, text);
    FragmentAt(body + separator + text, fragment);
    QueryGrows(body, text);
  }

  // ----- What the fix-up promises -----

  /** The redirect stays on our origin and does not merely strip our parameters. */
  ghost predicate Follows(base: Url, loc: string, ours: seq<Param>, place: string -> Place,
                          unescape: string -> string)
  {
    match Resolve(base, loc, place)
    case NoTarget => false
    case Target(target) => base.origin == target.origin && !Canonicalising(base, target, ours, unescape)
  }

  /** A Location that is followed has a path or a query of its own: so what decides the
      separator is whether a query stands in its text. */
  lemma FollowedHasOwnQuery(base: Url, loc: string, ours: seq<Param>, place: string -> Place,
                            unescape: string -> string)
    requires Follows(base, loc, ours, place, unescape)
    ensures Resolve(base, loc, place).url.query == Take(loc).query
  {
  }

  lemma {:induction false} IsOneOfAppend(xs: seq<Param>, ys: seq<Param>, name: string)
    ensures IsOneOf(xs + ys, name) == (IsOneOf(xs, name) || IsOneOf(ys, name))
    decreases |xs|
  {
    if xs == [] {
      assert xs + ys == ys;
    } else {
      assert (xs + ys)[0] == xs[0] && (xs + ys)[1..] == xs[1..] + ys;
      IsOneOfAppend(xs[1..], ys, name);
    }
  }

  lemma CoveredAfter(ours: seq<Param>, theirs: seq<Param>, i: nat)
    requires i < |ours|
    ensures IsOneOf(theirs + Missing(ours, theirs), ours[i].name)
  {
    var name := ours[i].name;
    IsOneOfAppend(theirs, Missing(ours, theirs), name);
    if !IsOneOf(theirs, name) {
      MissingParts(ours, theirs);
      IsOneOfMeaning(Missing(ours, theirs), name);
      var j :| 0 <= j < |Missing(ours, theirs)| && Missing(ours, theirs)[j] == ours[i];
      assert SameName(Missing(ours, theirs)[j].name, name);
    }
  }

  lemma OurParamsClean(untrusted: string)
    ensures AllClean(OurParams(untrusted))
  {
    var query := untrusted[..IndexOf(untrusted, '#')];
    assert forall j :: 0 <= j < |query| ==> query[j] == untrusted[j];
    ParseClean(query);
  }

  /** A Location that is not followed stays as it is. One that is keeps its path, its
      fragment and all of its parameters in order, gains exactly those of ours that it
      lacks, and then has every one of our settings. */
  lemma FixUpMeaning(base: Url, loc: string, untrusted: string, place: string -> Place, unescape: string -> string)
    ensures var ours := OurParams(untrusted);
            var fixed := FixUp(base, loc, ours, place, unescape);
            var r, s := Take(loc), Take(fixed);
            if !Follows(base, loc, ours, place, unescape) then fixed == loc
            else
              && s.path == r.path && s.fragment == r.fragment
              && ParamsOf(s.query) == ParamsOf(r.query) + Missing(ours, ParamsOf(r.query))
              && (forall i :: 0 <= i < |ours| ==> IsOneOf(ParamsOf(s.query), ours[i].name))
  {
    var ours := OurParams(untrusted);
    if Follows(base, loc, ours, place, unescape) {
      var r := Take(loc);
      var missing := Missing(ours, ParamsOf(r.query));
      FollowedHasOwnQuery(base, loc, ours, place, unescape);
      OurParamsClean(untrusted);
      MissingParts(ours, ParamsOf(r.query));
      ParseText(missing);
      TextHasNoHash(missing);
      forall i | 0 <= i < |ours|
        ensures IsOneOf(ParamsOf(r.query) + missing, ours[i].name)
      {
        CoveredAfter(ours, ParamsOf(r.query), i);
      }
      if missing == [] {
        assert ParamsOf(r.query) + missing == ParamsOf(r.query);
      } else {
        InsertedParts(loc, Text(missing));
        if r.query.Query? {
          ParseAppend(r.query.text, Text(missing));
        } else {
          assert [] + missing == missing;
        }
      }
    }
  }

  lemma InsertedGrows(loc: string, separator: string, text: string)
    requires text != ""
    ensures Inserted(loc, separator, text) != loc
  {
    assert |Inserted(loc, separator, text)| == |loc| + |separator| + |text|;
  }

  lemma MissingNone(ours: seq<Param>, theirs: seq<Param>)
    ensures Missing(ours, theirs) == [] <==> forall i :: 0 <= i < |ours| ==> IsOneOf(theirs, ours[i].name)
  {
    MissingParts(ours, theirs);
    if forall i :: 0 <= i < |ours| ==> IsOneOf(theirs, ours[i].name) {
      NothingMissing(ours, theirs);
    }
  }

  /** Every one of our settings is selected by some parameter of the query. */
  ghost predicate LacksNone(ours: seq<Param>, q: Query) {
    forall i :: 0 <= i < |ours| ==>
      exists j :: 0 <= j < |ParamsOf(q)| && SameName(ParamsOf(q)[j].name, ours[i].name)
  }

  /** A Location is left alone exactly when it leads nowhere or away from the origin, lacks
      none of our settings, or leads to the same place with the same parameters besides
      ours, by name, value and number. */
  lemma LeftAloneExactly(base: Url, loc: string, untrusted: string, place: string -> Place,
                         unescape: string -> string)
    ensures var ours := OurParams(untrusted);
            FixUp(base, loc, ours, place, unescape) == loc <==>
              match Resolve(base, loc, place)
              case NoTarget => true
              case Target(target) =>
                || base.origin != target.origin
                || LacksNone(ours, target.query)
                || (base.front == target.front && SameParameters(base.query, target.query, ours, unescape))
  {
    var ours := OurParams(untrusted);
    match Resolve(base, loc, place)
    case NoTarget =>
    case Target(target) =>
      AlikeExactly(base.query, target.query, ours, unescape);
      NoneMissingText(untrusted, target.query);
      var missing := Text(Missing(ours, ParamsOf(target.query)));
      if missing != "" {
        InsertedGrows(loc, if target.query.NoQuery? then "?" else "&", missing);
      }
  }

  lemma NoneMissingText(untrusted: string, q: Query)
    ensures var ours := OurParams(untrusted);
            Text(Missing(ours, ParamsOf(q))) == "" <==> LacksNone(ours, q)
  {
    var ours := OurParams(untrusted);
    OurParamsClean(untrusted);
    MissingParts(ours, ParamsOf(q));
    MissingNone(ours, ParamsOf(q));
    TextHasNoHash(Missing(ours, ParamsOf(q)));
    forall i | 0 <= i < |ours|
      ensures IsOneOf(ParamsOf(q), ours[i].name) <==>
                exists j :: 0 <= j < |ParamsOf(q)| && SameName(ParamsOf(q)[j].name, ours[i].name)
    {
      IsOneOfMeaning(ParamsOf(q), ours[i].name);
    }
  }

  lemma {:induction false} NothingMissing(ours: seq<Param>, theirs: seq<Param>)
    requires forall i :: 0 <= i < |ours| ==> IsOneOf(theirs, ours[i].name)
    ensures Missing(ours, theirs) == []
    decreases |ours|
  {
    if ours != [] {
      NothingMissing(ours[1..], theirs);
    }
  }

  /** Along a chain of redirects our parameters are added once: what was fixed stays as it
      is, whatever request it answers next and wherever its path leads from there. */
  lemma FixUpOnce(base: Url, loc: string, untrusted: string, place: string -> Place, unescape: string -> string,
                  base2: Url, place2: string -> Place)
    requires Follows(base, loc, OurParams(untrusted), place, unescape)
    ensures var ours := OurParams(untrusted);
            var fixed := FixUp(base, loc, ours, place, unescape);
            FixUp(base2, fixed, ours, place2, unescape) == fixed
  {
    var ours := OurParams(untrusted);
    var fixed := FixUp(base, loc, ours, place, unescape);
    FixUpMeaning(base, loc, untrusted, place, unescape);
    if Follows(base2, fixed, ours, place2, unescape) {
      FollowedHasOwnQuery(base2, fixed, ours, place2, unescape);
      NothingMissing(ours, ParamsOf(Take(fixed).query));
    }
  }

  /** And a Location that is fixed for a request stays so for that request. */
  lemma FixUpIdempotent(base: Url, loc: string, untrusted: string, place: string -> Place, unescape: string -> string)
    ensures var ours := OurParams(untrusted);
            var fixed := FixUp(base, loc, ours, place, unescape);
            FixUp(base, fixed, ours, place, unescape) == fixed
  {
    FixUpMeaning(base, loc, untrusted, place, unescape);
    if Follows(base, loc, OurParams(untrusted), place, unescape) {
      FixUpOnce(base, loc, untrusted, place, unescape, base, place);
    }
  }

  /** The two spellings of the prefix select the same settings, in any letter case of the
      option. */
  lemma PrefixesAlike(option: string)
    ensures ParamKey(MOD_PAGESPEED + option) == ParamKey(PAGESPEED + option) == OptionKey(option)
  {
    var m, p := MOD_PAGESPEED + option, PAGESPEED + option;
    assert LowerAll(m)[0] == 'm' && LowerAll(p)[0] == 'p';
    assert LowerAll(CLIENT_OPTIONS)[0] == 'x' && LowerAll(CACHE_CONTROL)[0] == 'c';
    assert p[0] == 'P' && MOD_PAGESPEED[0] == 'M';
    assert m[|MOD_PAGESPEED|..] == option && p[|PAGESPEED|..] == option;
  }

  lemma OptionKeysAlike(a: string, b: string)
    ensures OptionKey(a) == OptionKey(b) <==>
              a == b || (a != "" && a != "Filters" && b != "" && b != "Filters" && CaseEqual(a, b))
    ensures OptionKey(a) != ""
  {
    assert ("e:" + a)[0] == 'e' && ("o:" + LowerAll(b))[0] == 'o';
    assert ("e:" + b)[0] == 'e' && ("o:" + LowerAll(a))[0] == 'o';
    assert ("e:" + a)[2..] == a && ("e:" + b)[2..] == b;
    assert ("o:" + LowerAll(a))[2..] == LowerAll(a) && ("o:" + LowerAll(b))[2..] == LowerAll(b);
  }

  /** Which names with our prefixes select one setting: option names are compared without
      regard to case, but the bare prefix and the filters list exactly. */
  lemma SettingsAlike(a: string, b: string)
    ensures SameName(PAGESPEED + a, MOD_PAGESPEED + b) <==>
              a == b || (a != "" && a != "Filters" && b != "" && b != "Filters" && CaseEqual(a, b))
  {
    PrefixesAlike(a);
    PrefixesAlike(b);
    OptionKeysAlike(a, b);
    assert (PAGESPEED + a)[0] == 'P' && (MOD_PAGESPEED + b)[0] == 'M';
  }

  method CollectMissing(ours: seq<Param>, theirs: seq<Param>) returns (missing: string)
    requires AllClean(ours)
    ensures missing == Text(Missing(ours, theirs))
  {
    missing := "";
    var i := 0;
    while i < |ours|
      invariant 0 <= i <= |ours| && missing == Text(Missing(ours[..i], theirs))
    {
      MissingPush(ours, theirs, i);
      var there := IsOneOfOurParams(theirs, ours[i].name);
      if !there {
        if missing != "" {
          missing := missing + "&";
        }
        missing := missing + PairText(ours[i]);
      }
      i := i + 1;
    }
    assert ours[..i] == ours;
  }

  /** The Location part of HandleHeadersComplete. */
  method FixLocation(base: Url, loc: string, ours: seq<Param>, place: string -> Place, unescape: string -> string)
    returns (fixed: string)
    requires AllClean(ours)
    ensures fixed == FixUp(base, loc, ours, place, unescape)
  {
    var target := Resolve(base, loc, place);
    if target.NoTarget? || base.origin != target.url.origin {
      return loc;
    }
    var before := NormalizedQueryWithoutOurs(base.query, ours, unescape);
    var after := NormalizedQueryWithoutOurs(target.url.query, ours, unescape);
    if base.front == target.url.front && before == after {
      return loc;
    }
    var missing := CollectMissing(ours, ParamsOf(target.url.query));
    if missing == "" {
      return loc;
    }
    return Inserted(loc, if target.url.query.Query? then "&" else "?", missing);
  }

  lemma {:induction false} MissingSnoc(ours: seq<Param>, p: Param, theirs: seq<Param>)
    ensures Missing(ours + [p], theirs) == Missing(ours, theirs) + if IsOneOf(theirs, p.name) then [] else [p]
    decreases |ours|
  {
    var all := ours + [p];
    if ours == [] {
      assert all == [p] && all[1..] == [];
    } else {
      assert all[0] == ours[0] && all[1..] == ours[1..] + [p];
      MissingSnoc(ours[1..], p, theirs);
    }
  }

  lemma {:induction false} TextPush(params: seq<Param>, p: Param)
    ensures Text(params + [p]) == if params == [] then PairText(p) else Text(params) + "&" + PairText(p)
    decreases |params|
  {
    var all := params + [p];
    if |params| == 0 {
      assert all == [p];
    } else {
      assert all[0] == params[0] && all[1..] == params[1..] + [p];
      TextPush(params[1..], p);
    }
  }

  lemma MissingPush(ours: seq<Param>, theirs: seq<Param>, i: nat)
    requires i < |ours| && AllClean(ours)
    ensures var before := Text(Missing(ours[..i], theirs));
            Text(Missing(ours[..i + 1], theirs))
            == if IsOneOf(theirs, ours[i].name) then before
               else (if before == "" then "" else before + "&") + PairText(ours[i])
  {
    assert ours[..i + 1] == ours[..i] + [ours[i]];
    var before := Missing(ours[..i], theirs);
    MissingSnoc(ours[..i], ours[i], theirs);
    MissingParts(ours[..i], theirs);
    TextHasNoHash(before);
    if IsOneOf(theirs, ours[i].name) {
      assert before + [] == before;
    } else {
      TextPush(before, ours[i]);
    }
  }
}
