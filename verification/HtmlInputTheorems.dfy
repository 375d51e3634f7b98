/** Conservation, the flush window's bounds, and independence from how the server cuts
    the response. */
module HtmlInputTheorems {
  import opened ByteStreams
  import opened HtmlDetection
  import opened HtmlInput

  // ----- Conservation -----

  function Parsed(log: seq<Event>): Bytes {
    if log == [] then []
    else Parsed(log[..|log| - 1]) + if log[|log| - 1].ParseText? then log[|log| - 1].text else []
  }

  lemma ParsedPush(log: seq<Event>, e: Event)
    ensures Parsed(log + [e]) == Parsed(log) + if e.ParseText? then e.text else []
  {
    assert (log + [e])[..|log|] == log;
  }

  /** Each byte of the input is held, parsed or put out, in order, and nothing is put
      out or parsed while it is undecided which. */
  ghost predicate Kept(c: Context, input: Bytes) {
    && c.sniff.Valid()
    && (if !c.sniff.decided then
          && !c.started && c.sniff.held == input && c.log == [] && c.output == c.sent == []
          && c.sinceFlush == |input| && LeadingBlanks(input) == |input|
        else
          && c.sniff.held == []
          && (if c.started then Parsed(c.log) == input && c.output == c.sent == []
              else c.sent + c.output == input && c.log == []))
  }

  lemma DeliverKeeps(c: Context, text: Bytes, input: Bytes)
    requires Kept(c, input) && c.sniff.decided
    ensures Kept(Deliver(c, text), input + text)
  {
    ParsedPush(c.log, ParseText(text));
    assert (c.sent + c.output) + text == c.sent + (c.output + text);
  }

  lemma DecisionKeeps(c: Context, d: DriverTraits, text: Bytes, input: Bytes)
    requires Kept(c, input) && !c.sniff.decided
    ensures Kept(Counted(Process(c, d, text), |text|), input + text)
  {
    var s := Consider(c.sniff, text);
    if s.decided {
      var e := c.(sniff := s.(held := []), started := s.html && d.accepts);
      assert Kept(e, []);
      if input == [] {
        assert [] + text == text == input + text;
      } else {
        DeliverKeeps(e, input, []);
        assert [] + input == input;
      }
      DeliverKeeps(if input == [] then e else Deliver(e, input), text, input);
    } else {
      BlanksOfConcat(input, text);
    }
  }

  lemma FlushKeeps(c: Context, d: DriverTraits, input: Bytes)
    requires Kept(c, input)
    ensures Kept(FlushContext(c, d), input) && Kept(Before(c, d), input)
  {
    ParsedPush(c.log, FlushDriver);
  }

  lemma PieceKeeps(c: Context, d: DriverTraits, piece: Bytes, input: Bytes)
    requires Kept(c, input)
    ensures Kept(AddPiece(c, d, piece), input + piece)
  {
    FlushKeeps(c, d, input);
    if c.sniff.decided {
      DeliverKeeps(Before(c, d), piece, input);
    } else {
      DecisionKeeps(c, d, piece, input);
    }
  }

  lemma {:induction false} AddKeeps(c: Context, d: DriverTraits, data: Bytes, input: Bytes)
    requires Kept(c, input)
    ensures Kept(Add(c, d, data), input + data)
    decreases |data|
  {
    if data == [] {
      assert input + data == input;
    } else {
      var n := Min(|data|, Room(Before(c, d)));
      var piece, rest := data[..n], data[n..];
      assert data == piece + rest && (input + piece) + rest == input + data;
      PieceKeeps(c, d, piece, input);
      AddKeeps(AddPiece(c, d, piece), d, rest, input + piece);
    }
  }

  lemma {:induction false} CallsKeep(c: Context, d: DriverTraits, calls: seq<Call>, input: Bytes)
    requires Kept(c, input)
    ensures Kept(DoCalls(c, d, calls), input + Input(calls))
    decreases |calls|
  {
    if calls == [] {
      assert input + [] == input;
    } else {
      var more := if calls[0].Data? then calls[0].bytes else [];
      assert (input + more) + Input(calls[1..]) == input + Input(calls);
      match calls[0] {
        case Data(bytes) =>
          AddKeeps(c, d, bytes, input);
        case OriginFlush =>
          FlushKeeps(c, d, input);
          assert input + more == input;
        case TakeOutput =>
          assert input + more == input;
          assert (c.sent + c.output) + [] == c.sent + c.output;
      }
      CallsKeep(DoCall(c, d, calls[0]), d, calls[1..], input + more);
    }
  }

  /** However the response is cut, flushed and drained, it is all parsed, or it is all
      put out unchanged, in order; though Finish replaces the output with what is held,
      nothing is lost by that. */
  lemma Conserves(d: DriverTraits, calls: seq<Call>)
    ensures var c := FinishContext(DoCalls(NEW_CONTEXT, d, calls));
            && c.sniff.held == []
            && if c.started then
                 Parsed(c.log) == Input(calls) && c.sent + c.output == []
               else
                 c.sent + c.output == Input(calls) && Parsed(c.log) == []
  {
    var c := DoCalls(NEW_CONTEXT, d, calls);
    CallsKeep(NEW_CONTEXT, d, calls, []);
    assert [] + Input(calls) == Input(calls);
    ParsedPush(c.log, FinishParse);
    assert [] + c.sniff.held == c.sniff.held;
  }

  ghost predicate Unfinished(c: Context) {
    FinishParse !in c.log
  }

  lemma {:induction false} AddUnfinished(c: Context, d: DriverTraits, data: Bytes)
    requires Unfinished(c)
    ensures Unfinished(Add(c, d, data))
    decreases |data|
  {
    if data != [] {
      var n := Min(|data|, Room(Before(c, d)));
      assert Unfinished(Before(c, d));
      AddUnfinished(AddPiece(c, d, data[..n]), d, data[n..]);
    }
  }

  lemma {:induction false} CallsUnfinished(c: Context, d: DriverTraits, calls: seq<Call>)
    requires Unfinished(c)
    ensures Unfinished(DoCalls(c, d, calls))
    decreases |calls|
  {
    if calls != [] {
      if calls[0].Data? {
        AddUnfinished(c, d, calls[0].bytes);
      }
      CallsUnfinished(DoCall(c, d, calls[0]), d, calls[1..]);
    }
  }

  /** A parse that was started is finished once, at the end; no other driver hears of it. */
  lemma FinishesParseOnce(d: DriverTraits, calls: seq<Call>)
    ensures var c, e := DoCalls(NEW_CONTEXT, d, calls), FinishContext(DoCalls(NEW_CONTEXT, d, calls));
            FinishParse !in c.log && e.log == if c.started then c.log + [FinishParse] else []
  {
    CallsUnfinished(NEW_CONTEXT, d, calls);
    CallsKeep(NEW_CONTEXT, d, calls, []);
  }

  // ----- The window's bounds -----

  /** The bytes parsed since the last flush that released anything. */
  function SinceRelease(d: DriverTraits, log: seq<Event>): nat {
    if log == [] then 0
    else
      var before := log[..|log| - 1];
      match log[|log| - 1]
      case ParseText(text) => SinceRelease(d, before) + |text|
      case FlushDriver => if d.holdsBack(before) then SinceRelease(d, before) else 0
      case FinishParse => SinceRelease(d, before)
  }

  /** A piece of `n` bytes, parsed after `log`, fits the window, or the driver holds back
      what it has. */
  predicate Fits(d: DriverTraits, log: seq<Event>, n: nat) {
    n <= WINDOW && (SinceRelease(d, log) + n <= WINDOW || d.holdsBack(log))
  }

  ghost predicate PiecesFit(d: DriverTraits, log: seq<Event>) {
    forall i :: 0 <= i < |log| && log[i].ParseText? ==> Fits(d, log[..i], |log[i].text|)
  }

  ghost predicate Windowed(c: Context, d: DriverTraits) {
    PiecesFit(d, c.log) && (c.started ==> c.sinceFlush == SinceRelease(d, c.log))
  }

  lemma PushFits(d: DriverTraits, log: seq<Event>, e: Event)
    requires PiecesFit(d, log) && (e.ParseText? ==> Fits(d, log, |e.text|))
    ensures PiecesFit(d, log + [e])
    ensures SinceRelease(d, log + [e]) == match e
                                          case ParseText(text) => SinceRelease(d, log) + |text|
                                          case FlushDriver => if d.holdsBack(log) then SinceRelease(d, log) else 0
                                          case FinishParse => SinceRelease(d, log)
  {
    var all := log + [e];
    assert all[..|log|] == log;
    forall i | 0 <= i < |all| && all[i].ParseText?
      ensures Fits(d, all[..i], |all[i].text|)
    {
      if i < |log| {
        assert all[..i] == log[..i];
      }
    }
  }

  lemma FlushWindowed(c: Context, d: DriverTraits)
    requires Windowed(c, d)
    ensures Windowed(FlushContext(c, d), d) && Windowed(Before(c, d), d)
  {
    PushFits(d, c.log, FlushDriver);
  }

  /** What is parsed by the piece that decides: what was held, if anything, then it. */
  function Opening(held: Bytes, piece: Bytes): seq<Event> {
    if held == [] then [ParseText(piece)] else [ParseText(held), ParseText(piece)]
  }

  lemma PieceOpens(c: Context, d: DriverTraits, piece: Bytes, input: Bytes)
    requires Kept(c, input) && !c.sniff.decided
    ensures var q := AddPiece(c, d, piece);
            if q.started then q.log == Opening(input, piece) && q.sinceFlush == |input| + |piece| else q.log == []
  {
  }

  lemma OpeningFits(d: DriverTraits, held: Bytes, piece: Bytes)
    requires |held| + |piece| <= WINDOW
    ensures PiecesFit(d, Opening(held, piece)) && SinceRelease(d, Opening(held, piece)) == |held| + |piece|
  {
    PushFits(d, [], ParseText(held));
    PushFits(d, [], ParseText(piece));
    assert [] + [ParseText(held)] == [ParseText(held)] && [] + [ParseText(piece)] == [ParseText(piece)];
    PushFits(d, [ParseText(held)], ParseText(piece));
    assert [ParseText(held)] + [ParseText(piece)] == [ParseText(held), ParseText(piece)];
  }

  lemma PieceContinues(c: Context, d: DriverTraits, piece: Bytes)
    requires c.sniff.decided
    ensures var b, q := Before(c, d), AddPiece(c, d, piece);
            && q.started == b.started == c.started
            && if c.started then
                 q.log == b.log + [ParseText(piece)] && q.sinceFlush == b.sinceFlush + |piece|
               else
                 q.log == b.log == c.log
  {
  }

  lemma PieceWindowed(c: Context, d: DriverTraits, piece: Bytes, input: Bytes)
    requires Kept(c, input) && Windowed(c, d) && |piece| <= Room(Before(c, d))
    ensures Windowed(AddPiece(c, d, piece), d)
  {
    if c.sniff.decided {
      FlushWindowed(c, d);
      PieceContinues(c, d, piece);
      if c.started {
        PushFits(d, Before(c, d).log, ParseText(piece));
      }
    } else {
      PieceOpens(c, d, piece, input);
      OpeningFits(d, input, piece);
    }
  }

  lemma {:induction false} AddWindowed(c: Context, d: DriverTraits, data: Bytes, input: Bytes)
    requires Kept(c, input) && Windowed(c, d)
    ensures Windowed(Add(c, d, data), d)
    decreases |data|
  {
    if data != [] {
      var n := Min(|data|, Room(Before(c, d)));
      var piece, rest := data[..n], data[n..];
      PieceKeeps(c, d, piece, input);
      PieceWindowed(c, d, piece, input);
      AddWindowed(AddPiece(c, d, piece), d, rest, input + piece);
    }
  }

  lemma {:induction false} CallsWindowed(c: Context, d: DriverTraits, calls: seq<Call>, input: Bytes)
    requires Kept(c, input) && Windowed(c, d)
    ensures Windowed(DoCalls(c, d, calls), d)
    decreases |calls|
  {
    if calls != [] {
      CallsKeep(c, d, [calls[0]], input);
      assert [calls[0]][1..] == [] && DoCalls(c, d, [calls[0]]) == DoCall(c, d, calls[0]);
      if calls[0].Data? {
        AddWindowed(c, d, calls[0].bytes, input);
      } else if calls[0].OriginFlush? {
        FlushWindowed(c, d);
      }
      CallsWindowed(DoCall(c, d, calls[0]), d, calls[1..], input + Input([calls[0]]));
    }
  }

  /** However large what the server hands over, and however long the driver holds back,
      no piece is larger than the window, a piece that carries what is unreleased over
      the window is parsed only while the driver holds back, and the window's count is
      what has been parsed since the last flush that released anything. */
  lemma WindowBoundsPieces(d: DriverTraits, calls: seq<Call>)
    ensures var c := DoCalls(NEW_CONTEXT, d, calls);
            PiecesFit(d, c.log) && (c.started ==> c.sinceFlush == SinceRelease(d, c.log))
  {
    CallsWindowed(NEW_CONTEXT, d, calls, []);
  }

  // ----- Where the flushes fall -----

  /** What is parsed between one flush and the next. */
  function Spans(log: seq<Event>): (r: seq<Bytes>)
    ensures r != []
  {
    if log == [] then [[]]
    else
      var r := Spans(log[..|log| - 1]);
      match log[|log| - 1]
      case ParseText(text) => r[..|r| - 1] + [r[|r| - 1] + text]
      case FlushDriver => r + [[]]
      case FinishParse => r
  }

  /** A document in windows: all full but the last, which is empty only if all is. */
  function Windows(s: Bytes): seq<Bytes>
    decreases |s|
  {
    if |s| <= WINDOW then [s] else [s[..WINDOW]] + Windows(s[WINDOW..])
  }

  ghost predicate Full(spans: seq<Bytes>) {
    && spans != []
    && (forall i :: 0 <= i < |spans| - 1 ==> |spans[i]| == WINDOW)
    && |spans[|spans| - 1]| <= WINDOW
    && (|spans| > 1 ==> spans[|spans| - 1] != [])
  }

  lemma {:induction false} FullSpansAreWindows(spans: seq<Bytes>)
    requires Full(spans)
    ensures spans == Windows(Flatten(spans))
    decreases |spans|
  {
    if |spans| == 1 {
      assert spans == [spans[0]];
      FlattenOne(spans[0]);
    } else {
      var rest := spans[1..];
      assert rest[|rest| - 1] == spans[|spans| - 1];
      FullSpansAreWindows(rest);
      var s := Flatten(spans);
      assert s == spans[0] + Flatten(rest);
      assert Flatten(rest) != [] by {
        assert rest == rest[..|rest| - 1] + [rest[|rest| - 1]];
        FlattenPush(rest[..|rest| - 1], rest[|rest| - 1]);
      }
      assert s[..WINDOW] == spans[0] && s[WINDOW..] == Flatten(rest);
    }
  }

  lemma SpansPush(log: seq<Event>, e: Event)
    ensures var r := Spans(log);
            Spans(log + [e]) == match e
                                case ParseText(text) => r[..|r| - 1] + [r[|r| - 1] + text]
                                case FlushDriver => r + [[]]
                                case FinishParse => r
  {
    assert (log + [e])[..|log|] == log;
  }

  lemma LastSpanGrows(front: seq<Bytes>, last: Bytes, text: Bytes)
    ensures Flatten(front + [last + text]) == Flatten(front + [last]) + text
  {
    FlattenPush(front, last);
    FlattenPush(front, last + text);
    assert (Flatten(front) + last) + text == Flatten(front) + (last + text);
  }

  lemma {:induction false} SpansCarryText(log: seq<Event>)
    ensures Flatten(Spans(log)) == Parsed(log)
    decreases |log|
  {
    if log == [] {
      FlattenOne([]);
    } else {
      var before, e := log[..|log| - 1], log[|log| - 1];
      SpansCarryText(before);
      var r := Spans(before);
      match e
      case ParseText(text) =>
        assert r == r[..|r| - 1] + [r[|r| - 1]];
        LastSpanGrows(r[..|r| - 1], r[|r| - 1], text);
      case FlushDriver => FlattenPush(r, []);
      case FinishParse =>
    }
  }

  ghost predicate NeverHoldsBack(d: DriverTraits) {
    forall log :: !d.holdsBack(log)
  }

  /** The last span is what the window counts. */
  ghost predicate Spanned(c: Context) {
    c.started ==> Full(Spans(c.log)) && |Spans(c.log)[|Spans(c.log)| - 1]| == c.sinceFlush
  }

  lemma OpeningSpans(held: Bytes, piece: Bytes)
    ensures Spans(Opening(held, piece)) == [held + piece]
  {
    SpansPush([], ParseText(held));
    SpansPush([], ParseText(piece));
    assert [] + [ParseText(held)] == [ParseText(held)] && [] + [ParseText(piece)] == [ParseText(piece)];
    SpansPush([ParseText(held)], ParseText(piece));
    assert [ParseText(held)] + [ParseText(piece)] == [ParseText(held), ParseText(piece)];
    assert [] + held == held && [] + piece == piece;
  }

  lemma GrowsFull(log: seq<Event>, piece: Bytes)
    requires var r := Spans(log);
             Full(r) && piece != [] && |r[|r| - 1]| + |piece| <= WINDOW
    ensures var r, q := Spans(log), Spans(log + [ParseText(piece)]);
            Full(q) && |q[|q| - 1]| == |r[|r| - 1]| + |piece|
  {
    SpansPush(log, ParseText(piece));
  }

  lemma FlushGrowsFull(log: seq<Event>, piece: Bytes)
    requires var r := Spans(log);
             Full(r) && 0 < |piece| <= WINDOW && |r[|r| - 1]| == WINDOW
    ensures var q := Spans(log + [FlushDriver] + [ParseText(piece)]);
            Full(q) && |q[|q| - 1]| == |piece|
  {
    SpansPush(log, FlushDriver);
    SpansPush(log + [FlushDriver], ParseText(piece));
  }

  lemma PieceSpanned(c: Context, d: DriverTraits, piece: Bytes, input: Bytes)
    requires Kept(c, input) && Spanned(c) && NeverHoldsBack(d) && piece != [] && |piece| <= Room(Before(c, d))
    ensures Spanned(AddPiece(c, d, piece))
  {
    if !c.sniff.decided {
      PieceOpens(c, d, piece, input);
      OpeningSpans(input, piece);
    } else if c.started {
      PieceContinues(c, d, piece);
      assert !d.holdsBack(c.log);
      if c.sinceFlush >= WINDOW {
        FlushGrowsFull(c.log, piece);
      } else {
        GrowsFull(c.log, piece);
      }
    }
  }

  lemma {:induction false} AddSpanned(c: Context, d: DriverTraits, data: Bytes, input: Bytes)
    requires Kept(c, input) && Spanned(c) && NeverHoldsBack(d)
    ensures Spanned(Add(c, d, data))
    decreases |data|
  {
    if data != [] {
      var n := Min(|data|, Room(Before(c, d)));
      var piece, rest := data[..n], data[n..];
      PieceKeeps(c, d, piece, input);
      PieceSpanned(c, d, piece, input);
      AddSpanned(AddPiece(c, d, piece), d, rest, input + piece);
    }
  }

  /** The response handed over in `pieces`, without flushes from the origin. */
  function DataCalls(pieces: seq<Bytes>): seq<Call> {
    if pieces == [] then [] else [Data(pieces[0])] + DataCalls(pieces[1..])
  }

  lemma {:induction false} DataCallsInput(pieces: seq<Bytes>)
    ensures Input(DataCalls(pieces)) == Flatten(pieces)
    decreases |pieces|
  {
    if pieces != [] {
      DataCallsInput(pieces[1..]);
      assert ([Data(pieces[0])] + DataCalls(pieces[1..]))[1..] == DataCalls(pieces[1..]);
    }
  }

  lemma DataCallsStep(c: Context, d: DriverTraits, pieces: seq<Bytes>)
    requires pieces != []
    ensures DoCalls(c, d, DataCalls(pieces)) == DoCalls(Add(c, d, pieces[0]), d, DataCalls(pieces[1..]))
  {
    var calls := DataCalls(pieces);
    assert calls[0] == Data(pieces[0]) && calls[1..] == DataCalls(pieces[1..]);
  }

  lemma {:induction false} DataSpanned(c: Context, d: DriverTraits, pieces: seq<Bytes>, input: Bytes)
    requires Kept(c, input) && Spanned(c) && NeverHoldsBack(d)
    ensures Spanned(DoCalls(c, d, DataCalls(pieces)))
    decreases |pieces|
  {
    if pieces != [] {
      DataCallsStep(c, d, pieces);
      AddKeeps(c, d, pieces[0], input);
      AddSpanned(c, d, pieces[0], input);
      DataSpanned(Add(c, d, pieces[0]), d, pieces[1..], input + pieces[0]);
    }
  }

  /** When the driver never holds back, the flushes of a parsed response fall exactly
      before its bytes W, 2W, ..., however it was cut. */
  lemma FlushesFallAtWindows(d: DriverTraits, pieces: seq<Bytes>)
    requires NeverHoldsBack(d)
    ensures var c := FinishContext(DoCalls(NEW_CONTEXT, d, DataCalls(pieces)));
            c.started ==> Spans(c.log) == Windows(Flatten(pieces))
  {
    var c := DoCalls(NEW_CONTEXT, d, DataCalls(pieces));
    DataSpanned(NEW_CONTEXT, d, pieces, []);
    Conserves(d, DataCalls(pieces));
    DataCallsInput(pieces);
    if c.started {
      SpansPush(c.log, FinishParse);
      FullSpansAreWindows(Spans(c.log));
      SpansCarryText(c.log + [FinishParse]);
    }
  }

  // ----- The decision -----

  /** The window never lets a piece cross the byte W while nothing is decided. */
  function Clip(pieces: seq<Bytes>, room: nat): seq<Bytes>
    decreases |pieces|
  {
    if pieces == [] then []
    else if |pieces[0]| <= room then [pieces[0]] + Clip(pieces[1..], room - |pieces[0]|)
    else [pieces[0][..room], pieces[0][room..]] + pieces[1..]
  }

  lemma {:induction false} ClipKeepsStream(pieces: seq<Bytes>, room: nat)
    ensures Flatten(Clip(pieces, room)) == Flatten(pieces)
    decreases |pieces|
  {
    if pieces != [] {
      var p, rest := pieces[0], pieces[1..];
      if |p| <= room {
        ClipKeepsStream(rest, room - |p|);
        FlattenAppend([p], Clip(rest, room - |p|));
        FlattenOne(p);
      } else {
        FlattenAppend([p[..room], p[room..]], rest);
        FlattenPush([p[..room]], p[room..]);
        FlattenOne(p[..room]);
        assert [p[..room], p[room..]] == [p[..room]] + [p[room..]] && p[..room] + p[room..] == p;
      }
    }
  }

  lemma {:induction false} AddStaysDecided(c: Context, d: DriverTraits, data: Bytes)
    requires c.sniff.decided
    ensures Add(c, d, data).sniff == c.sniff
    decreases |data|
  {
    if data != [] {
      var n := Min(|data|, Room(Before(c, d)));
      AddStaysDecided(AddPiece(c, d, data[..n]), d, data[n..]);
    }
  }

  lemma {:induction false} DataStaysDecided(c: Context, d: DriverTraits, pieces: seq<Bytes>)
    requires c.sniff.decided
    ensures DoCalls(c, d, DataCalls(pieces)).sniff == c.sniff
    decreases |pieces|
  {
    if pieces != [] {
      DataCallsStep(c, d, pieces);
      AddStaysDecided(c, d, pieces[0]);
      DataStaysDecided(Add(c, d, pieces[0]), d, pieces[1..]);
    }
  }

  lemma AddDecides(c: Context, d: DriverTraits, data: Bytes, input: Bytes)
    requires Kept(c, input) && !c.sniff.decided
    ensures var n := Min(|data|, WINDOW - |input|);
            var s := Consider(c.sniff, data[..n]);
            var q := Add(c, d, data);
            && q.sniff.decided == s.decided && q.sniff.html == s.html
            && (!s.decided ==> n == |data| && q.sniff == s)
  {
    if data == [] {
      assert c.sniff.held + data == c.sniff.held;
      assert data[..0] == data;
    } else {
      var n := Min(|data|, WINDOW - |input|);
      var e := AddPiece(c, d, data[..n]);
      assert Before(c, d) == c && Add(c, d, data) == Add(e, d, data[n..]);
      DecisionKeeps(c, d, data[..n], input);
      if e.sniff.decided {
        AddStaysDecided(e, d, data[n..]);
      } else {
        assert data[n..] == [];
      }
    }
  }

  lemma ClipStep(pieces: seq<Bytes>, room: nat) returns (more: seq<Bytes>)
    requires pieces != []
    ensures Clip(pieces, room) == [pieces[0][..Min(|pieces[0]|, room)]] + more
    ensures |pieces[0]| <= room ==> more == Clip(pieces[1..], room - |pieces[0]|)
  {
    var p, rest := pieces[0], pieces[1..];
    if |p| <= room {
      more := Clip(rest, room - |p|);
      assert p[..|p|] == p;
    } else {
      more := [p[room..]] + rest;
      assert [p[..room], p[room..]] + rest == [p[..room]] + more;
    }
  }

  lemma FeedStep(d: Sniff, first: Bytes, more: seq<Bytes>)
    requires !d.decided
    ensures Feed(d, [first] + more) == Feed(Consider(d, first), more)
  {
    assert ([first] + more)[0] == first && ([first] + more)[1..] == more;
  }

  /** The context decides as a detector fed the clipped pieces does. */
  lemma {:induction false} DecidesAsClipped(c: Context, d: DriverTraits, pieces: seq<Bytes>, input: Bytes)
    requires Kept(c, input) && !c.sniff.decided
    ensures DoCalls(c, d, DataCalls(pieces)).sniff.IsHtml() <==> Feed(c.sniff, Clip(pieces, WINDOW - |input|)).IsHtml()
    decreases |pieces|
  {
    if pieces != [] {
      var p, rest := pieces[0], pieces[1..];
      DataCallsStep(c, d, pieces);
      AddDecides(c, d, p, input);
      AddKeeps(c, d, p, input);
      var room := WINDOW - |input|;
      var more := ClipStep(pieces, room);
      FeedStep(c.sniff, p[..Min(|p|, room)], more);
      var q := Add(c, d, p);
      if q.sniff.decided {
        DataStaysDecided(q, d, rest);
      } else {
        DecidesAsClipped(q, d, rest, input + p);
      }
    }
  }

  predicate JudgedHtml(d: DriverTraits, pieces: seq<Bytes>) {
    DoCalls(NEW_CONTEXT, d, DataCalls(pieces)).sniff.IsHtml()
  }

  /** Too many blanks are noticed by the byte W. */
  lemma WindowOfBlanksNotHtml(pieces: seq<Bytes>)
    requires LeadingBlanks(Flatten(pieces)) >= WINDOW
    ensures !Feed(FRESH, Clip(pieces, WINDOW)).IsHtml()
  {
    var k := SplitAt(pieces, WINDOW);
    var clipped := Clip(pieces, WINDOW);
    var s := Flatten(clipped);
    ClipKeepsStream(pieces, WINDOW);
    FlattenAppend(clipped[..k], clipped[k..]);
    assert clipped[..k] + clipped[k..] == clipped;
    LeadingBlanksMeaning(s);
    var front := Flatten(clipped[..k]);
    forall i | 0 <= i < |front|
      ensures IsBlank(front[i])
    {
      assert front[i] == s[i];
    }
    LeadingBlanksUnique(front, |front|);
    BlanksOverLimitNotHtml(FRESH, clipped[..k]);
    FeedAppend(FRESH, clipped[..k], clipped[k..]);
  }

  lemma {:induction false} SplitAt(pieces: seq<Bytes>, room: nat) returns (k: nat)
    requires |Flatten(pieces)| >= room
    ensures k <= |Clip(pieces, room)| && |Flatten(Clip(pieces, room)[..k])| == room
    decreases |pieces|
  {
    var clipped := Clip(pieces, room);
    if room == 0 {
      return 0;
    }
    var p, rest := pieces[0], pieces[1..];
    if |p| <= room {
      k := SplitAt(rest, room - |p|);
      assert clipped[..k + 1] == [p] + Clip(rest, room - |p|)[..k];
      FlattenAppend([p], Clip(rest, room - |p|)[..k]);
      FlattenOne(p);
      k := k + 1;
    } else {
      assert clipped[..1] == [p[..room]];
      FlattenOne(p[..room]);
      k := 1;
    }
  }

  /** Exactly which responses the context judges alike however they are cut: all but
      those in which '<' follows more than 64 KiB of blanks within the first window. */
  lemma JudgedAlikeExactly(d: DriverTraits, s: Bytes)
    ensures var n := LeadingBlanks(s);
            (forall pieces: seq<Bytes> :: Flatten(pieces) == s ==> (JudgedHtml(d, pieces) <==> JudgedHtml(d, [s])))
            <==> !(MAX_BUFFERED_BYTES < n < WINDOW && n < |s| && s[n] == LESS_THAN)
  {
    var n := LeadingBlanks(s);
    FlattenOne(s);
    if MAX_BUFFERED_BYTES < n < WINDOW && n < |s| && s[n] == LESS_THAN {
      var cut := CutMatters(d, s);
    } else {
      forall pieces: seq<Bytes> | Flatten(pieces) == s
        ensures JudgedHtml(d, pieces) <==> JudgedHtml(d, [s])
      {
        JudgedBy(d, s, pieces);
        JudgedBy(d, s, [s]);
      }
    }
  }

  /** Outside the family above: HTML if and only if '<' follows at most 64 KiB of blanks. */
  lemma JudgedBy(d: DriverTraits, s: Bytes, pieces: seq<Bytes>)
    requires Flatten(pieces) == s
    requires var n := LeadingBlanks(s); !(MAX_BUFFERED_BYTES < n < WINDOW && n < |s| && s[n] == LESS_THAN)
    ensures var n := LeadingBlanks(s);
            JudgedHtml(d, pieces) <==> n <= MAX_BUFFERED_BYTES && n < |s| && s[n] == LESS_THAN
  {
    var n := LeadingBlanks(s);
    var clipped := Clip(pieces, WINDOW);
    DecidesAsClipped(NEW_CONTEXT, d, pieces, []);
    ClipKeepsStream(pieces, WINDOW);
    if n <= MAX_BUFFERED_BYTES {
      CutsOfShortBlanksAgree(s, clipped);
    } else if n >= WINDOW {
      WindowOfBlanksNotHtml(pieces);
    } else {
      NotHtmlPastLimit(FRESH, clipped);
    }
  }

  lemma JudgedByFirst(d: DriverTraits, piece: Bytes, pieces: seq<Bytes>)
    requires pieces != [] && pieces[0] == piece && Consider(FRESH, piece[..Min(|piece|, WINDOW)]).decided
    ensures JudgedHtml(d, pieces) <==> Consider(FRESH, piece[..Min(|piece|, WINDOW)]).IsHtml()
  {
    DataCallsStep(NEW_CONTEXT, d, pieces);
    AddDecides(NEW_CONTEXT, d, piece, []);
    DataStaysDecided(Add(NEW_CONTEXT, d, piece), d, pieces[1..]);
  }

  lemma WholeJudgedHtml(d: DriverTraits, s: Bytes)
    requires LeadingBlanks(s) < WINDOW && LeadingBlanks(s) < |s| && s[LeadingBlanks(s)] == LESS_THAN
    ensures JudgedHtml(d, [s])
  {
    var first := s[..Min(|s|, WINDOW)];
    LeadingBlanksMeaning(s);
    LeadingBlanksUnique(first, LeadingBlanks(s));
    JudgedByFirst(d, s, [s]);
  }

  lemma BlanksJudgedNotHtml(d: DriverTraits, blanks: Bytes, pieces: seq<Bytes>)
    requires MAX_BUFFERED_BYTES < |blanks| < WINDOW && LeadingBlanks(blanks) == |blanks|
    requires pieces != [] && pieces[0] == blanks
    ensures !JudgedHtml(d, pieces)
  {
    assert blanks[..Min(|blanks|, WINDOW)] == blanks;
    JudgedByFirst(d, blanks, pieces);
  }

  lemma CutMatters(d: DriverTraits, s: Bytes) returns (cut: seq<Bytes>)
    requires MAX_BUFFERED_BYTES < LeadingBlanks(s) < WINDOW
    requires LeadingBlanks(s) < |s| && s[LeadingBlanks(s)] == LESS_THAN
    ensures Flatten(cut) == s && !JudgedHtml(d, cut) && JudgedHtml(d, [s])
  {
    var n := LeadingBlanks(s);
    cut := [s[..n]] + [s[n..]];
    CutsOfLongBlanksDisagree(s);
    LeadingBlanksMeaning(s);
    LeadingBlanksUnique(s[..n], n);
    BlanksJudgedNotHtml(d, s[..n], cut);
    WholeJudgedHtml(d, s);
  }

  // ----- Independence from the cut -----

  predicate StartedRight(c: Context, d: DriverTraits) {
    c.started <==> c.sniff.IsHtml() && d.accepts
  }

  lemma {:induction false} AddStartedRight(c: Context, d: DriverTraits, data: Bytes, input: Bytes)
    requires Kept(c, input) && StartedRight(c, d)
    ensures StartedRight(Add(c, d, data), d)
    decreases |data|
  {
    if data != [] {
      var n := Min(|data|, Room(Before(c, d)));
      var piece, rest := data[..n], data[n..];
      PieceKeeps(c, d, piece, input);
      AddStartedRight(AddPiece(c, d, piece), d, rest, input + piece);
    }
  }

  lemma {:induction false} DataStartedRight(c: Context, d: DriverTraits, pieces: seq<Bytes>, input: Bytes)
    requires Kept(c, input) && StartedRight(c, d)
    ensures StartedRight(DoCalls(c, d, DataCalls(pieces)), d)
    decreases |pieces|
  {
    if pieces != [] {
      DataCallsStep(c, d, pieces);
      AddKeeps(c, d, pieces[0], input);
      AddStartedRight(c, d, pieces[0], input);
      DataStartedRight(Add(c, d, pieces[0]), d, pieces[1..], input + pieces[0]);
    }
  }

  /** What becomes of a response depends on the driver only in where it is flushed. */
  lemma Outcome(d: DriverTraits, pieces: seq<Bytes>)
    ensures var c := FinishContext(DoCalls(NEW_CONTEXT, d, DataCalls(pieces)));
            && (c.started <==> JudgedHtml(d, pieces) && d.accepts)
            && if c.started then
                 Parsed(c.log) == Flatten(pieces) && c.sent + c.output == []
               else
                 c.log == [] && c.sent + c.output == Flatten(pieces)
  {
    CallsKeep(NEW_CONTEXT, d, DataCalls(pieces), []);
    DataStartedRight(NEW_CONTEXT, d, pieces, []);
    Conserves(d, DataCalls(pieces));
    DataCallsInput(pieces);
  }

  /** Two cuts of one response, outside the family where the decision depends on the cut,
      are both parsed to the same text or both put out as they are, whatever the driver
      does; if it never holds back, the flushes fall at the same bytes too. */
  lemma CutDoesNotMatter(d: DriverTraits, s: Bytes, one: seq<Bytes>, other: seq<Bytes>)
    requires Flatten(one) == s && Flatten(other) == s
    requires var n := LeadingBlanks(s); !(MAX_BUFFERED_BYTES < n < WINDOW && n < |s| && s[n] == LESS_THAN)
    ensures var a := FinishContext(DoCalls(NEW_CONTEXT, d, DataCalls(one)));
            var b := FinishContext(DoCalls(NEW_CONTEXT, d, DataCalls(other)));
            && a.started == b.started && Parsed(a.log) == Parsed(b.log) && a.sent + a.output == b.sent + b.output
            && (NeverHoldsBack(d) ==> Spans(a.log) == Spans(b.log))
  {
    JudgedBy(d, s, one);
    JudgedBy(d, s, other);
    Outcome(d, one);
    Outcome(d, other);
    if NeverHoldsBack(d) {
      FlushesFallAtWindows(d, one);
      FlushesFallAtWindows(d, other);
    }
  }
}
