/** Guessing from the first bytes whether a response that claims to be HTML is HTML. */
module HtmlDetection {
  import opened ByteStreams

  // The most leading blank bytes held while undecided.
  const MAX_BUFFERED_BYTES: nat := 64 * 1024

  const LESS_THAN: Byte := 0x3c

  /** Whitespace, or one of the bytes of a UTF-8 byte order mark. */
  predicate IsBlank(b: Byte) {
    b == 0x20 || b == 0x09 || b == 0x0a || b == 0x0d || b == 0xef || b == 0xbb || b == 0xbf
  }

  function LeadingBlanks(s: Bytes): (n: nat)
    ensures n <= |s|
  {
    if s == [] || !IsBlank(s[0]) then 0 else 1 + LeadingBlanks(s[1..])
  }

  lemma {:induction false} LeadingBlanksMeaning(s: Bytes)
    ensures forall i :: 0 <= i < LeadingBlanks(s) ==> IsBlank(s[i])
    ensures LeadingBlanks(s) < |s| ==> !IsBlank(s[LeadingBlanks(s)])
  {
    if s != [] && IsBlank(s[0]) {
      LeadingBlanksMeaning(s[1..]);
      forall i | 0 < i < LeadingBlanks(s)
        ensures IsBlank(s[i])
      {
        assert s[i] == s[1..][i - 1];
      }
    }
  }

  lemma LeadingBlanksUnique(s: Bytes, n: nat)
    requires n <= |s|
    requires forall i :: 0 <= i < n ==> IsBlank(s[i])
    requires n < |s| ==> !IsBlank(s[n])
    ensures LeadingBlanks(s) == n
  {
    LeadingBlanksMeaning(s);
  }

  /** The detector's fields. */
  datatype Sniff = Sniff(held: Bytes, decided: bool, html: bool) {
    ghost predicate Valid() {
      |held| <= MAX_BUFFERED_BYTES
    }

    /** What the owner acts on: parse, or pass through. */
    predicate IsHtml() {
      decided && html
    }
  }

  const FRESH := Sniff([], false, false)

  function Consider(d: Sniff, data: Bytes): (r: Sniff)
    requires !d.decided
    ensures d.Valid() ==> r.Valid()
  {
    var n := LeadingBlanks(data);
    if n < |data| then
      Sniff(d.held, true, data[n] == LESS_THAN)
    else if |data| > MAX_BUFFERED_BYTES - |d.held| then
      Sniff(d.held, true, false)
    else
      Sniff(d.held + data, false, d.html)
  }

  /** Feeds pieces to the detector until it decides, as both of its owners do. */
  function Feed(d: Sniff, pieces: seq<Bytes>): Sniff
    decreases |pieces|
  {
    if d.decided || pieces == [] then d else Feed(Consider(d, pieces[0]), pieces[1..])
  }

  class HtmlDetector {
    var buffer: Bytes
    var alreadyDecided: bool
    var probableHtml: bool

    ghost function View(): Sniff
      reads this
    {
      Sniff(buffer, alreadyDecided, probableHtml)
    }

    constructor ()
      ensures View() == FRESH
    {
      buffer, alreadyDecided, probableHtml := [], false, false;
    }

    /** The buffer never holds more than the limit, so the source's unsigned
        subtraction of its size from the limit does not wrap. */
    method ConsiderInput(data: Bytes) returns (decided: bool)
      requires !alreadyDecided && View().Valid()
      modifies this
      ensures View() == Consider(old(View()), data)
      ensures decided == alreadyDecided
    {
      for i := 0 to |data|
        invariant View() == old(View())
        invariant forall j :: 0 <= j < i ==> IsBlank(data[j])
      {
        var c := data[i];
        if !IsBlank(c) {
          LeadingBlanksUnique(data, i);
          alreadyDecided, probableHtml := true, c == LESS_THAN;
          return true;
        }
      }
      LeadingBlanksUnique(data, |data|);
      assert 0 <= MAX_BUFFERED_BYTES - |buffer|;
      if |data| > MAX_BUFFERED_BYTES - |buffer| {
        alreadyDecided, probableHtml := true, false;
        return true;
      }
      buffer := buffer + data;
      return false;
    }

    method ReleaseBuffered() returns (released: Bytes)
      modifies this
      ensures released == old(buffer)
      ensures View() == old(View()).(held := [])
    {
      released := buffer;
      buffer := [];
    }

    method ForceDecision(isHtml: bool)
      requires !alreadyDecided
      modifies this
      ensures View() == Sniff(old(buffer), true, isHtml)
    {
      alreadyDecided, probableHtml := true, isHtml;
    }
  }

  // ----- The decision and the way the stream was cut -----

  lemma BlanksOfConcat(a: Bytes, b: Bytes)
    requires LeadingBlanks(a) == |a|
    ensures LeadingBlanks(a + b) == |a| + LeadingBlanks(b)
  {
    var n := LeadingBlanks(b);
    LeadingBlanksMeaning(a);
    LeadingBlanksMeaning(b);
    forall i | 0 <= i < |a| + n
      ensures IsBlank((a + b)[i])
    {
      if i < |a| {
        assert IsBlank(a[i]);
      } else {
        assert (a + b)[i] == b[i - |a|];
      }
    }
    LeadingBlanksUnique(a + b, |a| + n);
  }

  lemma BlanksOfPrefix(a: Bytes, b: Bytes)
    requires LeadingBlanks(a) < |a|
    ensures LeadingBlanks(a + b) == LeadingBlanks(a)
  {
    var n := LeadingBlanks(a);
    LeadingBlanksMeaning(a);
    forall i | 0 <= i < n
      ensures IsBlank((a + b)[i])
    {
      assert IsBlank(a[i]);
    }
    LeadingBlanksUnique(a + b, n);
  }

  /** While at most 64 KiB of blanks lead the stream, the decision is the first
      other byte's alone, and an all-blank stream is held whole. */
  lemma {:induction false} DecisionIsFirstOtherByte(d: Sniff, pieces: seq<Bytes>)
    requires d.Valid() && !d.decided && LeadingBlanks(d.held) == |d.held|
    requires LeadingBlanks(d.held + Flatten(pieces)) <= MAX_BUFFERED_BYTES
    ensures var s := d.held + Flatten(pieces);
            var n := LeadingBlanks(s);
            var r := Feed(d, pieces);
            if n < |s| then r.decided && r.html == (s[n] == LESS_THAN)
            else !r.decided && r.held == s
    decreases |pieces|
  {
    var s := d.held + Flatten(pieces);
    if pieces == [] {
      assert s == d.held;
    } else {
      var data, rest := pieces[0], Flatten(pieces[1..]);
      assert s == d.held + (data + rest) == (d.held + data) + rest;
      BlanksOfConcat(d.held, data);
      if LeadingBlanks(data) < |data| {
        BlanksOfPrefix(d.held + data, rest);
        assert Feed(d, pieces) == Feed(Consider(d, data), pieces[1..]) == Consider(d, data);
      } else {
        BlanksOfConcat(d.held + data, rest);
        DecisionIsFirstOtherByte(Consider(d, data), pieces[1..]);
      }
    }
  }

  /** Spaces, tabs, line ends and the bytes of a byte order mark do not count; the first
      other byte does. */
  lemma FirstOtherByteDecides(pieces: seq<Bytes>, n: nat)
    requires n < |Flatten(pieces)| && n <= 65536
    requires forall i :: 0 <= i < n ==> Flatten(pieces)[i] in BLANKS
    requires Flatten(pieces)[n] !in BLANKS
    ensures Feed(FRESH, pieces).decided && (Feed(FRESH, pieces).html <==> Flatten(pieces)[n] == 0x3c)
  {
    LeadingBlanksUnique(Flatten(pieces), n);
    assert [] + Flatten(pieces) == Flatten(pieces);
    DecisionIsFirstOtherByte(FRESH, pieces);
  }

  const BLANKS: set<Byte> := {0x20, 0x09, 0x0a, 0x0d, 0xef, 0xbb, 0xbf}

  /** Past 64 KiB of leading blanks, a cut that leaves more than 64 KiB of them
      before the first other byte decides against HTML. */
  lemma {:induction false} BlanksOverLimitNotHtml(d: Sniff, pieces: seq<Bytes>)
    requires d.Valid() && !d.decided
    requires LeadingBlanks(Flatten(pieces)) == |Flatten(pieces)|
    requires |d.held| + |Flatten(pieces)| > MAX_BUFFERED_BYTES
    ensures Feed(d, pieces).decided && !Feed(d, pieces).html
    decreases |pieces|
  {
    if pieces != [] {
      var data, rest := pieces[0], Flatten(pieces[1..]);
      if LeadingBlanks(data) < |data| {
        BlanksOfPrefix(data, rest);
        assert false;
      }
      BlanksOfConcat(data, rest);
      if |data| <= MAX_BUFFERED_BYTES - |d.held| {
        BlanksOverLimitNotHtml(Consider(d, data), pieces[1..]);
      }
    }
  }

  lemma {:induction false} FeedAppend(d: Sniff, xs: seq<Bytes>, ys: seq<Bytes>)
    ensures Feed(d, xs + ys) == Feed(Feed(d, xs), ys)
    decreases |xs|
  {
    if xs == [] {
      assert xs + ys == ys;
    } else if d.decided {
    } else {
      assert (xs + ys)[1..] == xs[1..] + ys;
      FeedAppend(Consider(d, xs[0]), xs[1..], ys);
    }
  }

  ghost predicate CutIndependent(s: Bytes) {
    forall pieces: seq<Bytes> :: Flatten(pieces) == s ==> (Feed(FRESH, pieces).IsHtml() <==> Feed(FRESH, [s]).IsHtml())
  }

  lemma CutsOfShortBlanksAgree(s: Bytes, pieces: seq<Bytes>)
    requires LeadingBlanks(s) <= MAX_BUFFERED_BYTES && Flatten(pieces) == s
    ensures Feed(FRESH, pieces).IsHtml() <==> LeadingBlanks(s) < |s| && s[LeadingBlanks(s)] == LESS_THAN
  {
    assert [] + s == s;
    DecisionIsFirstOtherByte(FRESH, pieces);
  }

  lemma FeedDecides(d: Sniff, piece: Bytes, more: seq<Bytes>)
    requires d.Valid() && !d.decided && Consider(d, piece).decided
    ensures Feed(d, [piece] + more) == Consider(d, piece)
  {
    var pieces := [piece] + more;
    assert pieces[0] == piece && pieces[1..] == more;
  }

  lemma CutInTwo(s: Bytes, n: nat)
    requires n <= |s|
    ensures Flatten([s[..n]] + [s[n..]]) == s
  {
    FlattenPush([s[..n]], s[n..]);
    FlattenOne(s[..n]);
  }

  lemma BlanksAlone(s: Bytes, n: nat)
    requires n == LeadingBlanks(s)
    ensures LeadingBlanks(s[..n]) == n == |s[..n]|
  {
    LeadingBlanksMeaning(s);
    LeadingBlanksUnique(s[..n], n);
  }

  /** What a first piece decides when more than 64 KiB of blanks lead it. */
  lemma LongBlanksDecide(s: Bytes)
    requires LeadingBlanks(s) > MAX_BUFFERED_BYTES
    ensures Consider(FRESH, s).decided
    ensures Consider(FRESH, s).IsHtml() <==> LeadingBlanks(s) < |s| && s[LeadingBlanks(s)] == LESS_THAN
  {
  }

  /** One piece decides for HTML; a cut at the end of the blanks decides against. */
  lemma CutsOfLongBlanksDisagree(s: Bytes)
    requires MAX_BUFFERED_BYTES < LeadingBlanks(s) < |s| && s[LeadingBlanks(s)] == LESS_THAN
    ensures var blanks, rest := s[..LeadingBlanks(s)], s[LeadingBlanks(s)..];
            && Flatten([blanks] + [rest]) == s
            && Feed(FRESH, [s] + []).IsHtml() && !Feed(FRESH, [blanks] + [rest]).IsHtml()
  {
    var n := LeadingBlanks(s);
    CutInTwo(s, n);
    LongBlanksDecide(s);
    FeedDecides(FRESH, s, []);
    BlanksAlone(s, n);
    LongBlanksDecide(s[..n]);
    FeedDecides(FRESH, s[..n], [s[n..]]);
  }

  /** Exactly which streams are judged alike however they are cut: all but those
      in which '<' follows more than 64 KiB of blanks. */
  lemma CutIndependenceExact(s: Bytes)
    ensures var n := LeadingBlanks(s);
            CutIndependent(s) <==> !(MAX_BUFFERED_BYTES < n < |s| && s[n] == LESS_THAN)
  {
    var n := LeadingBlanks(s);
    FlattenOne(s);
    if MAX_BUFFERED_BYTES < n < |s| && s[n] == LESS_THAN {
      CutsOfLongBlanksDisagree(s);
      assert [s] + [] == [s];
    } else {
      forall pieces: seq<Bytes> | Flatten(pieces) == s
        ensures Feed(FRESH, pieces).IsHtml() <==> Feed(FRESH, [s]).IsHtml()
      {
        if n <= MAX_BUFFERED_BYTES {
          CutsOfShortBlanksAgree(s, pieces);
          CutsOfShortBlanksAgree(s, [s]);
        } else {
          NotHtmlPastLimit(FRESH, pieces);
          NotHtmlPastLimit(FRESH, [s]);
        }
      }
    }
  }

  /** A stream whose first other byte is not '<' is never judged HTML. */
  lemma {:induction false} NotHtmlPastLimit(d: Sniff, pieces: seq<Bytes>)
    requires d.Valid() && !d.decided
    requires var s := Flatten(pieces); var n := LeadingBlanks(s); n == |s| || s[n] != LESS_THAN
    ensures !Feed(d, pieces).IsHtml()
    decreases |pieces|
  {
    if pieces != [] {
      var data, rest := pieces[0], Flatten(pieces[1..]);
      if LeadingBlanks(data) < |data| {
        BlanksOfPrefix(data, rest);
        assert Feed(d, pieces) == Feed(Consider(d, data), pieces[1..]) == Consider(d, data);
      } else {
        BlanksOfConcat(data, rest);
        var r := Consider(d, data);
        if !r.decided {
          NotHtmlPastLimit(r, pieces[1..]);
        } else {
          assert Feed(d, pieces) == Feed(r, pieces[1..]) == r;
        }
      }
    }
  }
}
