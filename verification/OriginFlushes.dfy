/** Where the flushes of a parsed document fall when the server flushes it too. */
module OriginFlushes {
  import opened ByteStreams
  import opened HtmlDetection
  import opened HtmlInput
  import opened HtmlInputTheorems

  function LastOf(spans: seq<Bytes>): Bytes
    requires spans != []
  {
    spans[|spans| - 1]
  }

  /** Data after some spans: it fills the last up to the window, and then new ones. */
  function Fill(spans: seq<Bytes>, data: Bytes): (r: seq<Bytes>)
    requires spans != []
    ensures r != []
    decreases |data|
  {
    if data == [] then spans
    else if |LastOf(spans)| < WINDOW then
      var n := Min(|data|, WINDOW - |LastOf(spans)|);
      Fill(spans[..|spans| - 1] + [LastOf(spans) + data[..n]], data[n..])
    else
      var n := Min(|data|, WINDOW);
      Fill(spans + [data[..n]], data[n..])
  }

  /** The spans of a document that is handed over and flushed. */
  function FillAll(spans: seq<Bytes>, calls: seq<Call>): (r: seq<Bytes>)
    requires spans != []
    decreases |calls|
  {
    if calls == [] then spans
    else match calls[0]
      case Data(bytes) => FillAll(Fill(spans, bytes), calls[1..])
      case OriginFlush => FillAll(spans + [[]], calls[1..])
      case TakeOutput => FillAll(spans, calls[1..])
  }

  /** The window counts the last span. */
  ghost predicate Counts(c: Context) {
    c.started ==> c.sniff.decided && |LastOf(Spans(c.log))| == c.sinceFlush <= WINDOW
  }

  lemma PieceFills(c: Context, d: DriverTraits, piece: Bytes)
    requires c.started && Counts(c) && NeverHoldsBack(d) && piece != [] && |piece| <= Room(Before(c, d))
    ensures var q := AddPiece(c, d, piece);
            && q.started && Counts(q)
            && Spans(q.log) == (if c.sinceFlush < WINDOW then
                                  Spans(c.log)[..|Spans(c.log)| - 1] + [LastOf(Spans(c.log)) + piece]
                                else
                                  Spans(c.log) + [piece])
  {
    PieceContinues(c, d, piece);
    assert !d.holdsBack(c.log);
    if c.sinceFlush >= WINDOW {
      SpansPush(c.log, FlushDriver);
      SpansPush(c.log + [FlushDriver], ParseText(piece));
      assert [] + piece == piece;
      assert (Spans(c.log) + [[]])[..|Spans(c.log)|] == Spans(c.log);
    } else {
      SpansPush(c.log, ParseText(piece));
    }
  }

  lemma {:induction false} AddFills(c: Context, d: DriverTraits, data: Bytes)
    requires c.started && Counts(c) && NeverHoldsBack(d)
    ensures var q := Add(c, d, data);
            q.started && Counts(q) && Spans(q.log) == Fill(Spans(c.log), data)
    decreases |data|
  {
    if data != [] {
      assert !d.holdsBack(c.log);
      var n := Min(|data|, Room(Before(c, d)));
      PieceFills(c, d, data[..n]);
      AddFills(AddPiece(c, d, data[..n]), d, data[n..]);
    }
  }

  lemma FlushFills(c: Context, d: DriverTraits)
    requires c.started && Counts(c) && NeverHoldsBack(d)
    ensures var q := FlushContext(c, d);
            q.started && Counts(q) && Spans(q.log) == Spans(c.log) + [[]]
  {
    assert !d.holdsBack(c.log);
    SpansPush(c.log, FlushDriver);
  }

  lemma {:induction false} CallsFill(c: Context, d: DriverTraits, calls: seq<Call>)
    requires c.started && Counts(c) && NeverHoldsBack(d)
    ensures var q := DoCalls(c, d, calls);
            q.started && Counts(q) && Spans(q.log) == FillAll(Spans(c.log), calls)
    decreases |calls|
  {
    if calls != [] {
      match calls[0] {
        case Data(bytes) => AddFills(c, d, bytes);
        case OriginFlush => FlushFills(c, d);
        case TakeOutput =>
      }
      CallsFill(DoCall(c, d, calls[0]), d, calls[1..]);
    }
  }

  // ----- Up to the start of the parse -----

  lemma PieceCounts(c: Context, d: DriverTraits, piece: Bytes, input: Bytes)
    requires Kept(c, input) && Counts(c) && NeverHoldsBack(d) && piece != [] && |piece| <= Room(Before(c, d))
    ensures Counts(AddPiece(c, d, piece))
  {
    if !c.sniff.decided {
      PieceOpens(c, d, piece, input);
      OpeningSpans(input, piece);
    } else if c.started {
      PieceFills(c, d, piece);
    } else {
      PieceContinues(c, d, piece);
    }
  }

  lemma {:induction false} AddCounts(c: Context, d: DriverTraits, data: Bytes, input: Bytes)
    requires Kept(c, input) && Counts(c) && NeverHoldsBack(d)
    ensures Counts(Add(c, d, data))
    decreases |data|
  {
    if data != [] {
      var n := Min(|data|, Room(Before(c, d)));
      var piece, rest := data[..n], data[n..];
      PieceKeeps(c, d, piece, input);
      PieceCounts(c, d, piece, input);
      AddCounts(AddPiece(c, d, piece), d, rest, input + piece);
    }
  }

  lemma {:induction false} CallsCount(c: Context, d: DriverTraits, calls: seq<Call>, input: Bytes)
    requires Kept(c, input) && Counts(c) && NeverHoldsBack(d)
    ensures Counts(DoCalls(c, d, calls))
    decreases |calls|
  {
    if calls != [] {
      CallsKeep(c, d, [calls[0]], input);
      assert [calls[0]][1..] == [] && DoCalls(c, d, [calls[0]]) == DoCall(c, d, calls[0]);
      if calls[0].Data? {
        AddCounts(c, d, calls[0].bytes, input);
      } else if calls[0].OriginFlush? && c.started {
        FlushFills(c, d);
      }
      CallsCount(DoCall(c, d, calls[0]), d, calls[1..], input + Input([calls[0]]));
    }
  }

  lemma {:induction false} CallsAppend(c: Context, d: DriverTraits, xs: seq<Call>, ys: seq<Call>)
    ensures DoCalls(c, d, xs + ys) == DoCalls(DoCalls(c, d, xs), d, ys)
    decreases |xs|
  {
    if xs == [] {
      assert xs + ys == ys;
    } else {
      assert (xs + ys)[0] == xs[0] && (xs + ys)[1..] == xs[1..] + ys;
      CallsAppend(DoCall(c, d, xs[0]), d, xs[1..], ys);
    }
  }

  /** Once the parse has started, and if the driver never holds back, each flush of the
      server's begins a span where it comes, and the window's flushes fall where the span
      that it began is full. */
  lemma OriginFlushesFall(d: DriverTraits, before: seq<Call>, after: seq<Call>)
    requires NeverHoldsBack(d) && DoCalls(NEW_CONTEXT, d, before).started
    ensures var c, q := DoCalls(NEW_CONTEXT, d, before), DoCalls(NEW_CONTEXT, d, before + after);
            q.started && Spans(q.log) == FillAll(Spans(c.log), after)
  {
    CallsCount(NEW_CONTEXT, d, before, []);
    CallsFill(DoCalls(NEW_CONTEXT, d, before), d, after);
    CallsAppend(NEW_CONTEXT, d, before, after);
  }

  /** While a driver holds back, a flush of the server's still reaches it, but begins no new
      window; before the parse starts a flush does nothing. */
  lemma OriginFlushReachesDriver(d: DriverTraits, calls: seq<Call>)
    ensures var c := DoCalls(NEW_CONTEXT, d, calls);
            var q := DoCall(c, d, OriginFlush);
            if !c.started then q == c
            else q.log == c.log + [FlushDriver] && q.sinceFlush == if d.holdsBack(c.log) then c.sinceFlush else 0
  {
    CallsKeep(NEW_CONTEXT, d, calls, []);
  }
}
