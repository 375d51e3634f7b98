/** What reaches the client of an Apache fetch, for every way its producer may call it. */
module ApacheFetchTheorems {
  import opened ByteStreams
  import opened MappedRegions
  import opened MmapBuckets
  import opened ZeroCopyServes
  import opened ApacheFetching

  // What the producer calls, before Done.
  datatype Call = CompleteHeaders | WriteText(bytes: Bytes) | WriteMapped(bytes: Bytes, luck: MappedLuck) | Flush

  ghost predicate Allowed(call: Call, p: Policy) {
    call.WriteMapped? ==> Borrowed(call.luck, p, call.bytes)
  }

  function DoCall(f: Fetch, cfg: Config, p: Policy, call: Call): Fetch
    requires Allowed(call, p)
  {
    match call
    case CompleteHeaders => AfterComplete(f, cfg)
    case WriteText(bytes) => AfterWrite(f, cfg, bytes)
    case WriteMapped(bytes, luck) => AfterWriteMapped(f, cfg, p, bytes, luck)
    case Flush => AfterFlush(f, cfg)
  }

  ghost predicate AllAllowed(calls: seq<Call>, p: Policy) {
    forall i :: 0 <= i < |calls| ==> Allowed(calls[i], p)
  }

  function DoCalls(f: Fetch, cfg: Config, p: Policy, calls: seq<Call>): Fetch
    requires AllAllowed(calls, p)
    decreases |calls|
  {
    if calls == [] then f else DoCalls(DoCall(f, cfg, p, calls[0]), cfg, p, calls[1..])
  }

  /** The body that the producer hands over. */
  function BytesOf(call: Call): Bytes {
    if call.WriteText? || call.WriteMapped? then call.bytes else []
  }

  function Text(calls: seq<Call>): Bytes {
    if calls == [] then [] else BytesOf(calls[0]) + Text(calls[1..])
  }

  /** The part of it that is answered with. */
  function BodyOf(cfg: Config, call: Call): Bytes {
    if cfg.isHead then [] else BytesOf(call)
  }

  function BodyText(cfg: Config, calls: seq<Call>): Bytes {
    if cfg.isHead then [] else Text(calls)
  }

  predicate Completes(call: Call) {
    !call.WriteText? || call.bytes != []
  }

  // ----- What the client sees -----

  /** The body bytes before the connection is aborted, if it is. */
  function Seen(log: seq<Wire>): Bytes {
    if log == [] then []
    else match log[0]
      case Aborted => []
      case Body(bytes) => bytes + Seen(log[1..])
      case _ => Seen(log[1..])
  }

  lemma {:induction false} SeenPush(log: seq<Wire>, e: Wire)
    ensures Seen(log + [e]) == Seen(log) + if Aborted !in log && e.Body? then e.bytes else []
    decreases |log|
  {
    var all := log + [e];
    if log == [] {
      assert all == [e] && all[1..] == [];
    } else {
      assert all[0] == log[0] && all[1..] == log[1..] + [e];
      assert log[0] == Aborted <==> Aborted in [log[0]];
      assert log == [log[0]] + log[1..];
      if log[0] != Aborted {
        SeenPush(log[1..], e);
      }
    }
  }

  /** One set of headers, first, and nothing else but body, flushes and an abort. */
  ghost predicate HeadedBy(log: seq<Wire>, resp: Response, length: Length) {
    && log != [] && log[0] == HeadersOut(resp, length)
    && forall i :: 1 <= i < |log| ==> !log[i].HeadersOut?
  }

  ghost predicate Delivered(log: seq<Wire>, resp: Response, length: Length, body: Bytes) {
    HeadedBy(log, resp, length) && Aborted !in log && Seen(log) == body
  }

  const REFUSAL := Response(FORBIDDEN, true, NoCache)

  // ----- Mapped writes -----

  predicate Unhandled(cfg: Config, resp: Response) {
    !cfg.handleError && !resp.IsOk()
  }

  /** A mapped write that a streaming fetch tries to alias. */
  predicate Eligible(cfg: Config, resp: Response, luck: MappedLuck) {
    cfg.optedIn && !cfg.buffered && resp.status == 200 && luck.verbatim
  }

  /** The region has moved by the end of a copy of all of it. */
  predicate MovesUnderCopy(r: Region, p: Policy, weather: nat -> seq<Event>) {
    CopyBytes(r, p, 0, |r.bytes|, weather).r.moved
  }

  /** The serve of a region from a bucket over it takes the whole brigade without an error. */
  predicate Consumed(r: Region, p: Policy, acts: seq<Act>)
    requires !r.moved && p.ceiling >= READ_MARGIN
  {
    StartKept(r);
    var s := DoActs(Start(r), p, acts, r.bytes);
    !s.failed && s.brigade == []
  }

  /** Whether a mapped write is torn, from what it meets alone. One that may not be aliased
      is if the region has moved by the end of the copy. One that may is if the region has
      moved already; or, with no wrap declared and none forced within the emit margin, if
      no bucket was made or its serve was not consumed; or else if the copy is. */
  predicate TornBy(cfg: Config, p: Policy, resp: Response, luck: MappedLuck)
    requires p.ceiling >= READ_MARGIN
  {
    var r := luck.region;
    if !Eligible(cfg, resp, luck) || (!r.moved && r.intent) then MovesUnderCopy(r, p, luck.weather)
    else if r.moved then true
    else
      var leased := RenewLeaseStrict(r, p).r;
      if r.deadline.LaterThan(r.now + EMIT_MARGIN) then !luck.bucketMade || !Consumed(leased, p, luck.acts)
      else MovesUnderCopy(leased, p, luck.weather)
  }

  /** A mapped write of anything that is not dropped, for a HEAD request, an error that is
      not to be handled or a refusal, and is torn. */
  ghost predicate TornCall(cfg: Config, p: Policy, resp: Response, call: Call)
    requires Allowed(call, p)
  {
    && call.WriteMapped? && call.bytes != [] && !cfg.isHead
    && (cfg.buffered || !(Unhandled(cfg, resp) || resp.LacksType()))
    && TornBy(cfg, p, resp, call.luck)
  }

  ghost predicate AnyTorn(cfg: Config, p: Policy, resp: Response, calls: seq<Call>)
    requires AllAllowed(calls, p)
  {
    exists i :: 0 <= i < |calls| && TornCall(cfg, p, resp, calls[i])
  }

  lemma CopyIsOriginal(r: Region, p: Policy, span: Bytes, weather: nat -> seq<Event>)
    requires |r.bytes| == |span| && (!r.moved ==> r.bytes == span)
    ensures CopyVerified(r, p, weather).intact <==> !MovesUnderCopy(r, p, weather)
    ensures CopyVerified(r, p, weather).intact ==> CopyVerified(r, p, weather).bytes == span
  {
    CopyThenVerify(r, p, 0, |r.bytes|, weather);
  }

  lemma AliasedIsOriginal(r: Region, p: Policy, span: Bytes, luck: MappedLuck)
    requires !r.moved && r.bytes == span && p.ceiling >= READ_MARGIN
    ensures var served := ServeAliased(r, p, span, luck);
            && served.bytes <= span && (served.whole ==> served.bytes == span)
            && (served.whole <==> luck.bucketMade && Consumed(r, p, luck.acts))
  {
    if luck.bucketMade {
      ExactOrAborted(r, p, luck.acts);
    }
  }

  // ----- What each call keeps -----

  /** A streaming fetch whose headers are complete: `text` has been handed over, and
      `intact` says that none of it was torn. */
  ghost predicate Streaming(f: Fetch, cfg: Config, resp: Response, length: Length, text: Bytes, intact: bool) {
    && f.flags.headersComplete
    && if !cfg.handleError && !resp.IsOk() then
         intact && f.flags.squelch && !f.flags.headersSent && !f.flags.statusOk && f.writer == NEW_WRITER
       else if resp.LacksType() then
         && intact && f.flags.squelch && f.flags.headersSent && !f.flags.statusOk
         && Delivered(f.writer.log, REFUSAL, UnknownLength, MISSING_TYPE)
       else
         && !f.flags.squelch && f.flags.headersSent && f.flags.statusOk == resp.IsOk()
         && f.resp == resp.WithDefaultCaching()
         && HeadedBy(f.writer.log, f.resp, length)
         && Seen(f.writer.log) <= text && (Aborted !in f.writer.log ==> Seen(f.writer.log) == text)
         && (intact <==> Aborted !in f.writer.log)
  }

  /** A buffering fetch: as given, with all of the text, or poisoned, with none. */
  ghost predicate Buffering(f: Fetch, resp: Response, length: Length, text: Bytes, intact: bool) {
    && f.writer == NEW_WRITER && !f.flags.headersSent && (f.flags.squelch ==> f.flags.headersComplete)
    && (intact <==> !f.flags.squelch)
    && if f.flags.squelch then
         && f.length == UnknownLength && f.output == []
         && f.resp == Response(INTERNAL_ERROR, resp.hasContentType, Absent)
       else
         f.resp == resp && f.length == length && f.output == text
  }

  ghost predicate Kept(f: Fetch, cfg: Config, resp: Response, length: Length, text: Bytes, intact: bool) {
    if cfg.buffered then Buffering(f, resp, length, text, intact)
    else if f.flags.headersComplete then Streaming(f, cfg, resp, length, text, intact)
    else intact && f == NewFetch(resp, length) && text == []
  }

  lemma CompleteKeeps(f: Fetch, cfg: Config, resp: Response, length: Length, text: Bytes, intact: bool)
    requires Kept(f, cfg, resp, length, text, intact)
    ensures Kept(AfterComplete(f, cfg), cfg, resp, length, text, intact) && AfterComplete(f, cfg).flags.headersComplete
  {
    var g := AfterComplete(f, cfg);
    if !cfg.buffered && !f.flags.headersComplete && (cfg.handleError || resp.IsOk()) {
      SeenPush([HeadersOut(REFUSAL, UnknownLength)], Body(MISSING_TYPE));
      SeenPush([], HeadersOut(REFUSAL, UnknownLength));
      assert [] + [HeadersOut(REFUSAL, UnknownLength)] == [HeadersOut(REFUSAL, UnknownLength)];
      SeenPush([], HeadersOut(resp.WithDefaultCaching(), length));
      assert [] + [HeadersOut(resp.WithDefaultCaching(), length)] == [HeadersOut(resp.WithDefaultCaching(), length)];
      assert [] + MISSING_TYPE == MISSING_TYPE;
    }
  }

  lemma EmitKeeps(f: Fetch, cfg: Config, resp: Response, length: Length, text: Bytes, more: Bytes, intact: bool)
    requires Kept(f, cfg, resp, length, text, intact) && f.flags.headersComplete
    ensures Kept(AfterHandleWrite(f, cfg, more), cfg, resp, length, text + more, intact)
  {
    SeenPush(f.writer.log, Body(more));
    assert text <= text + more;
  }

  lemma FlushKeeps(f: Fetch, cfg: Config, resp: Response, length: Length, text: Bytes, intact: bool)
    requires Kept(f, cfg, resp, length, text, intact)
    ensures Kept(AfterFlush(f, cfg), cfg, resp, length, text, intact)
  {
    CompleteKeeps(f, cfg, resp, length, text, intact);
    var g := AfterComplete(f, cfg);
    SeenPush(g.writer.log, Flushed);
  }

  lemma AbortKeeps(f: Fetch, cfg: Config, resp: Response, length: Length, text: Bytes,
                   sent: Bytes, more: Bytes, intact: bool)
    requires Kept(f, cfg, resp, length, text, intact) && !cfg.buffered
    requires f.flags.headersComplete && f.flags.headersSent && !f.flags.squelch
    requires sent <= more
    ensures Kept(f.(writer := Put(Put(f.writer, Body(sent)), Aborted)), cfg, resp, length, text + more, false)
    ensures Kept(f.(writer := Put(f.writer, Aborted)), cfg, resp, length, text + more, false)
  {
    SeenPush(f.writer.log, Body(sent));
    SeenPush(f.writer.log + [Body(sent)], Aborted);
    SeenPush(f.writer.log, Aborted);
    assert text <= text + more && text + sent <= text + more;
  }

  /** Once output is squelched, by a refusal, an error or a torn mapping, further text
      changes nothing. */
  lemma DroppedKeeps(f: Fetch, cfg: Config, resp: Response, length: Length, text: Bytes, more: Bytes, intact: bool)
    requires Kept(f, cfg, resp, length, text, intact) && f.flags.headersComplete && f.flags.squelch
    ensures Kept(f, cfg, resp, length, text + more, intact)
  {
  }

  lemma CopiedKeeps(f: Fetch, cfg: Config, p: Policy, r: Region, luck: MappedLuck, resp: Response, length: Length,
                    text: Bytes, span: Bytes, intact: bool)
    requires Kept(f, cfg, resp, length, text, intact)
    requires f.flags.headersComplete && !f.flags.squelch && !cfg.isHead && span != []
    requires |r.bytes| == |span| && (!r.moved ==> r.bytes == span)
    ensures var torn := MovesUnderCopy(r, p, luck.weather);
            Kept(AfterCopiedWrite(f, cfg, p, r, luck), cfg, resp, length, text + span, intact && !torn)
  {
    CopyIsOriginal(r, p, span, luck.weather);
    var v := CopyVerified(r, p, luck.weather);
    if v.intact {
      EmitKeeps(f, cfg, resp, length, text, span, intact);
    } else if f.flags.headersSent {
      AbortKeeps(f, cfg, resp, length, text, [], span, intact);
    }
  }

  /** A mapped write after the headers are complete. */
  lemma MappedBodyKeeps(f: Fetch, cfg: Config, p: Policy, span: Bytes, luck: MappedLuck,
                        resp: Response, length: Length, text: Bytes, intact: bool)
    requires Kept(f, cfg, resp, length, text, intact) && Borrowed(luck, p, span)
    requires f.flags.headersComplete && !f.flags.squelch && !cfg.isHead && span != []
    ensures var torn := TornBy(cfg, p, resp, luck);
            Kept(AfterWriteMapped(f, cfg, p, span, luck), cfg, resp, length, text + span, intact && !torn)
  {
    assert MayAlias(f, cfg, luck) <==> Eligible(cfg, resp, luck);
    if !MayAlias(f, cfg, luck) {
      CopiedKeeps(f, cfg, p, luck.region, luck, resp, length, text, span, intact);
    } else {
      var v := RenewLeaseStrict(luck.region, p);
      if v.verdict == Ok && ForcedWrapBeyond(v.r, EMIT_MARGIN) {
        AliasedKeeps(f, cfg, p, v.r, span, luck, resp, length, text, intact);
      } else if v.verdict == Torn {
        AbortKeeps(f, cfg, resp, length, text, [], span, intact);
      } else {
        CopiedKeeps(f, cfg, p, v.r, luck, resp, length, text, span, intact);
      }
    }
  }

  lemma MappedAfterHeaders(f: Fetch, cfg: Config, p: Policy, span: Bytes, luck: MappedLuck,
                           resp: Response, length: Length, text: Bytes, intact: bool)
    requires Kept(f, cfg, resp, length, text, intact) && Borrowed(luck, p, span) && f.flags.headersComplete
    ensures var more := if cfg.isHead then [] else span;
            var torn := TornCall(cfg, p, resp, WriteMapped(span, luck));
            Kept(AfterWriteMapped(f, cfg, p, span, luck), cfg, resp, length, text + more, intact && !torn)
  {
    assert text + [] == text;
    if f.flags.squelch {
      DroppedKeeps(f, cfg, resp, length, text, span, intact);
    } else if span != [] && !cfg.isHead {
      MappedBodyKeeps(f, cfg, p, span, luck, resp, length, text, intact);
    }
  }

  lemma HeadersFirst(f: Fetch, cfg: Config, p: Policy, span: Bytes, luck: MappedLuck)
    requires Borrowed(luck, p, span)
    ensures AfterWriteMapped(f, cfg, p, span, luck) == AfterWriteMapped(AfterComplete(f, cfg), cfg, p, span, luck)
    ensures AfterWriteMapped(f, cfg, p, span, luck).flags.headersComplete
  {
  }

  lemma MappedKeeps(f: Fetch, cfg: Config, p: Policy, span: Bytes, luck: MappedLuck,
                    resp: Response, length: Length, text: Bytes, intact: bool)
    requires Kept(f, cfg, resp, length, text, intact) && Borrowed(luck, p, span)
    ensures var more := if cfg.isHead then [] else span;
            var torn := TornCall(cfg, p, resp, WriteMapped(span, luck));
            Kept(AfterWriteMapped(f, cfg, p, span, luck), cfg, resp, length, text + more, intact && !torn)
    ensures AfterWriteMapped(f, cfg, p, span, luck).flags.headersComplete
  {
    CompleteKeeps(f, cfg, resp, length, text, intact);
    HeadersFirst(f, cfg, p, span, luck);
    MappedAfterHeaders(AfterComplete(f, cfg), cfg, p, span, luck, resp, length, text, intact);
  }

  lemma AliasedKeeps(f: Fetch, cfg: Config, p: Policy, r: Region, span: Bytes, luck: MappedLuck,
                     resp: Response, length: Length, text: Bytes, intact: bool)
    requires Kept(f, cfg, resp, length, text, intact) && MayAlias(f, cfg, luck)
    requires !f.flags.squelch && f.flags.headersComplete
    requires !r.moved && r.bytes == span && p.ceiling >= READ_MARGIN
    ensures var whole := luck.bucketMade && Consumed(r, p, luck.acts);
            Kept(AfterAliasedWrite(f, p, r, span, luck), cfg, resp, length, text + span, intact && whole)
  {
    var served := ServeAliased(r, p, span, luck);
    AliasedIsOriginal(r, p, span, luck);
    if served.whole {
      EmitKeeps(f, cfg, resp, length, text, span, intact);
    } else {
      AbortKeeps(f, cfg, resp, length, text, served.bytes, span, intact);
    }
  }

  lemma CallKeeps(f: Fetch, cfg: Config, p: Policy, call: Call,
                  resp: Response, length: Length, text: Bytes, intact: bool)
    requires Kept(f, cfg, resp, length, text, intact) && Allowed(call, p)
    ensures var torn := TornCall(cfg, p, resp, call);
            Kept(DoCall(f, cfg, p, call), cfg, resp, length, text + BodyOf(cfg, call), intact && !torn)
    ensures Completes(call) || f.flags.headersComplete <==> DoCall(f, cfg, p, call).flags.headersComplete
  {
    assert text + [] == text;
    match call
    case CompleteHeaders => CompleteKeeps(f, cfg, resp, length, text, intact);
    case Flush =>
      CompleteKeeps(f, cfg, resp, length, text, intact);
      FlushKeeps(f, cfg, resp, length, text, intact);
    case WriteText(bytes) =>
      if bytes != [] {
        CompleteKeeps(f, cfg, resp, length, text, intact);
        EmitKeeps(AfterComplete(f, cfg), cfg, resp, length, text, bytes, intact);
      }
    case WriteMapped(bytes, luck) =>
      MappedKeeps(f, cfg, p, bytes, luck, resp, length, text, intact);
  }

  predicate AnyCompletes(calls: seq<Call>) {
    exists i :: 0 <= i < |calls| && Completes(calls[i])
  }

  lemma AnyCons(cfg: Config, p: Policy, resp: Response, calls: seq<Call>)
    requires calls != [] && AllAllowed(calls, p)
    ensures AnyTorn(cfg, p, resp, calls) == (TornCall(cfg, p, resp, calls[0]) || AnyTorn(cfg, p, resp, calls[1..]))
    ensures AnyCompletes(calls) == (Completes(calls[0]) || AnyCompletes(calls[1..]))
  {
    assert forall i :: 1 <= i < |calls| ==> calls[i] == calls[1..][i - 1];
  }

  lemma Regroup(a: Bytes, b: Bytes, c: Bytes)
    ensures (a + b) + c == a + (b + c)
  {
  }

  lemma {:induction false} CallsKeep(f: Fetch, cfg: Config, p: Policy, calls: seq<Call>,
                                     resp: Response, length: Length, text: Bytes, intact: bool)
    requires Kept(f, cfg, resp, length, text, intact) && AllAllowed(calls, p)
    ensures var torn := AnyTorn(cfg, p, resp, calls);
            Kept(DoCalls(f, cfg, p, calls), cfg, resp, length, text + BodyText(cfg, calls), intact && !torn)
    ensures DoCalls(f, cfg, p, calls).flags.headersComplete <==> f.flags.headersComplete || AnyCompletes(calls)
    decreases |calls|
  {
    if calls == [] {
      assert text + BodyText(cfg, calls) == text;
    } else {
      var call, rest := calls[0], calls[1..];
      var more := BodyOf(cfg, call);
      CallKeeps(f, cfg, p, call, resp, length, text, intact);
      AnyCons(cfg, p, resp, calls);
      assert BodyText(cfg, calls) == more + BodyText(cfg, rest);
      Regroup(text, more, BodyText(cfg, rest));
      CallsKeep(DoCall(f, cfg, p, call), cfg, p, rest, resp, length, text + more,
                intact && !TornCall(cfg, p, resp, call));
    }
  }

  // ----- Whole responses -----

  /** The response that a fetch ends with. */
  function FinalResponse(resp: Response, completed: bool, success: bool): Response {
    if completed || success then resp else FailedResponse(resp)
  }

  /** What a buffered fetch answers when a mapping was torn: nothing of the original. */
  ghost predicate AnswersPoison(log: seq<Wire>, cfg: Config, resp: Response) {
    if !cfg.handleError then log == []
    else if !resp.hasContentType then Delivered(log, REFUSAL, UnknownLength, MISSING_TYPE)
    else Delivered(log, Response(INTERNAL_ERROR, true, NoCache), UnknownLength, [])
  }

  /** What is answered when nothing is torn. */
  ghost predicate Answers(log: seq<Wire>, cfg: Config, resp: Response, length: Length, body: Bytes) {
    if Unhandled(cfg, resp) then log == []
    else if resp.LacksType() then Delivered(log, REFUSAL, UnknownLength, MISSING_TYPE)
    else Delivered(log, resp.WithDefaultCaching(), length, body)
  }

  ghost predicate AnswersTorn(log: seq<Wire>, cfg: Config, resp: Response, length: Length, body: Bytes) {
    if cfg.buffered then AnswersPoison(log, cfg, resp)
    else HeadedBy(log, resp.WithDefaultCaching(), length) && Aborted in log && Seen(log) <= body
  }

  lemma DoneKeeps(f: Fetch, cfg: Config, resp: Response, length: Length, text: Bytes, intact: bool, success: bool)
    requires Kept(f, cfg, resp, length, text, intact)
    ensures var g := AfterDone(f, cfg, success);
            && g.flags.headersComplete
            && Kept(g, cfg, FinalResponse(resp, f.flags.headersComplete, success), length, text, intact)
  {
    var r := FinalResponse(resp, f.flags.headersComplete, success);
    var e := if f.flags.headersComplete || success then f else f.(resp := FailedResponse(f.resp));
    assert Kept(e, cfg, r, length, text, intact);
    CompleteKeeps(e, cfg, r, length, text, intact);
  }

  lemma SeenOfTwo(resp: Response, length: Length, body: Bytes)
    ensures Delivered([HeadersOut(resp, length)], resp, length, [])
    ensures Delivered([HeadersOut(resp, length)] + [Body(body)], resp, length, body)
  {
    var log := [HeadersOut(resp, length)];
    SeenPush(log, Body(body));
    assert log[1..] == [] && [] + body == body;
  }

  lemma WaitAnswers(f: Fetch, cfg: Config, resp: Response, length: Length, text: Bytes, intact: bool)
    requires cfg.buffered && Buffering(f, resp, length, text, intact)
    ensures var log := AfterWait(f, cfg).writer.log;
            if intact then Answers(log, cfg, resp, length, text) else AnswersPoison(log, cfg, resp)
  {
    var g := AfterHeaders(f, cfg);
    SeenOfTwo(REFUSAL, UnknownLength, MISSING_TYPE);
    SeenOfTwo(f.resp.WithDefaultCaching(), f.length, f.output);
    assert [] + [HeadersOut(g.resp, g.writer.length)] == [HeadersOut(g.resp, g.writer.length)];
  }

  /** A fetch after its producer's calls, Done and Wait. */
  function Finished(cfg: Config, p: Policy, resp: Response, length: Length, calls: seq<Call>, success: bool): Fetch
    requires AllAllowed(calls, p)
  {
    AfterWait(AfterDone(DoCalls(NewFetch(resp, length), cfg, p, calls), cfg, success), cfg)
  }

  lemma DoneKept(cfg: Config, p: Policy, resp: Response, length: Length, calls: seq<Call>, success: bool)
    requires AllAllowed(calls, p)
    ensures var g := AfterDone(DoCalls(NewFetch(resp, length), cfg, p, calls), cfg, success);
            var r := FinalResponse(resp, AnyCompletes(calls), success);
            && Kept(g, cfg, r, length, BodyText(cfg, calls), !AnyTorn(cfg, p, resp, calls))
            && g.flags.headersComplete
  {
    var f0 := NewFetch(resp, length);
    assert Kept(f0, cfg, resp, length, [], true);
    CallsKeep(f0, cfg, p, calls, resp, length, [], true);
    assert [] + BodyText(cfg, calls) == BodyText(cfg, calls);
    var intact := !AnyTorn(cfg, p, resp, calls);
    DoneKeeps(DoCalls(f0, cfg, p, calls), cfg, resp, length, BodyText(cfg, calls), intact, success);
  }

  /** However the producer calls, whichever way the fetch works, and whatever the cache's
      writers do: one set of headers before anything else; nothing at all for an error
      that is not to be handled; the refusal alone for a response without a type; and
      otherwise the response and its whole body, exactly unless a mapping was torn that was
      not dropped. Then a streamed response is aborted after a prefix of its body, and a
      buffered one is replaced by an error without any of it. */
  lemma ClientSees(cfg: Config, p: Policy, resp: Response, length: Length, calls: seq<Call>, success: bool)
    requires AllAllowed(calls, p)
    ensures var log := Finished(cfg, p, resp, length, calls, success).writer.log;
            var r := FinalResponse(resp, AnyCompletes(calls), success);
            if AnyTorn(cfg, p, resp, calls) then AnswersTorn(log, cfg, r, length, BodyText(cfg, calls))
            else Answers(log, cfg, r, length, BodyText(cfg, calls))
  {
    DoneKept(cfg, p, resp, length, calls, success);
    var g := AfterDone(DoCalls(NewFetch(resp, length), cfg, p, calls), cfg, success);
    var r := FinalResponse(resp, AnyCompletes(calls), success);
    if cfg.buffered {
      WaitAnswers(g, cfg, r, length, BodyText(cfg, calls), !AnyTorn(cfg, p, resp, calls));
    } else {
      StreamAnswers(g, cfg, r, length, BodyText(cfg, calls), !AnyTorn(cfg, p, resp, calls));
    }
  }

  lemma StreamAnswers(f: Fetch, cfg: Config, resp: Response, length: Length, text: Bytes, intact: bool)
    requires !cfg.buffered && Streaming(f, cfg, resp, length, text, intact)
    ensures if intact then Answers(f.writer.log, cfg, resp, length, text)
            else AnswersTorn(f.writer.log, cfg, resp, length, text)
  {
  }

  /** What the handler goes by after Wait: response_committed says that something was
      sent, and status_ok that it was a response below 400. */
  predicate TellsHandler(f: Fetch) {
    && (f.flags.headersSent <==> f.writer.log != [])
    && (f.flags.statusOk <==> f.writer.log != [] && f.writer.log[0].HeadersOut? && f.writer.log[0].resp.IsOk())
  }

  lemma WaitTellsHandler(f: Fetch, cfg: Config, resp: Response, length: Length, text: Bytes, intact: bool)
    requires Kept(f, cfg, resp, length, text, intact) && f.flags.headersComplete
    ensures TellsHandler(AfterWait(f, cfg))
  {
  }

  lemma StatusTellsHandler(cfg: Config, p: Policy, resp: Response, length: Length, calls: seq<Call>, success: bool)
    requires AllAllowed(calls, p)
    ensures TellsHandler(Finished(cfg, p, resp, length, calls, success))
  {
    DoneKept(cfg, p, resp, length, calls, success);
    var g := AfterDone(DoCalls(NewFetch(resp, length), cfg, p, calls), cfg, success);
    var r := FinalResponse(resp, AnyCompletes(calls), success);
    WaitTellsHandler(g, cfg, r, length, BodyText(cfg, calls), !AnyTorn(cfg, p, resp, calls));
  }

  /** Unless something is torn, the same calls give the client the same response whether it
      is buffered or not. */
  lemma BufferingIsInvisible(cfg: Config, p: Policy, resp: Response, length: Length, calls: seq<Call>, success: bool)
    requires AllAllowed(calls, p)
    requires !AnyTorn(cfg.(buffered := true), p, resp, calls) && !AnyTorn(cfg.(buffered := false), p, resp, calls)
    ensures var one := Finished(cfg.(buffered := true), p, resp, length, calls, success).writer.log;
            var other := Finished(cfg.(buffered := false), p, resp, length, calls, success).writer.log;
            && Seen(one) == Seen(other) && (one == [] <==> other == []) && (one != [] ==> one[0] == other[0])
            && Aborted !in one && Aborted !in other
  {
    ClientSees(cfg.(buffered := true), p, resp, length, calls, success);
    ClientSees(cfg.(buffered := false), p, resp, length, calls, success);
  }

  // ----- Which headers -----

  /** What goes out first: nothing for an error left to another handler, and otherwise the
      refusal, or the status, the origin's Cache-Control or no-cache, and the length. */
  ghost predicate OpensWith(log: seq<Wire>, cfg: Config, resp: Response, length: Length) {
    var error := resp.status == 0 || resp.status >= 400;
    var exempt := resp.status == 304 || resp.status == 204;
    && (log == [] <==> !cfg.handleError && error)
    && (log != [] ==>
          if !exempt && !resp.hasContentType then log[0] == HeadersOut(Response(403, true, NoCache), UnknownLength)
          else
            var caching := if !exempt && resp.caching == Absent then NoCache else resp.caching;
            log[0] == HeadersOut(Response(resp.status, resp.hasContentType, caching), length))
  }

  /** The response that is answered with, by its status: what was given, unless the fetch
      failed before anything completed its headers. Then an unset status is a 404, and a
      200 is a 500 without any of its headers, even its type. */
  ghost predicate EndsAs(given: Response, end: Response, completed: bool, success: bool) {
    if completed || success || (given.status != 0 && given.status != 200) then end == given
    else if given.status == 0 then end == Response(404, given.hasContentType, given.caching)
    else end == Response(500, false, Absent)
  }

  lemma FirstHeaders(cfg: Config, p: Policy, resp: Response, length: Length, calls: seq<Call>, success: bool)
    requires AllAllowed(calls, p) && !AnyTorn(cfg, p, resp, calls)
    ensures exists end ::
              && EndsAs(resp, end, AnyCompletes(calls), success)
              && OpensWith(Finished(cfg, p, resp, length, calls, success).writer.log, cfg, end, length)
  {
    ClientSees(cfg, p, resp, length, calls, success);
    var end := FinalResponse(resp, AnyCompletes(calls), success);
    assert EndsAs(resp, end, AnyCompletes(calls), success);
  }

  /** A fetch that fails before anything completed its headers is answered with its own
      status, or 404 if it has none; but a 200, which was to become a 500, and anything else
      without a type is refused with a 403. */
  lemma FailureAnswers(cfg: Config, p: Policy, resp: Response, length: Length, calls: seq<Call>)
    requires AllAllowed(calls, p) && cfg.handleError && !AnyCompletes(calls)
    ensures var log := Finished(cfg, p, resp, length, calls, false).writer.log;
            var typeless := !resp.hasContentType && resp.status != 304 && resp.status != 204;
            && log != [] && log[0].HeadersOut?
            && log[0].resp.status == (if resp.status == 200 || typeless then 403
                                      else if resp.status == 0 then 404
                                      else resp.status)
  {
    assert forall i :: 0 <= i < |calls| && TornCall(cfg, p, resp, calls[i]) ==> Completes(calls[i]);
    FirstHeaders(cfg, p, resp, length, calls, false);
  }

  // ----- Flushes -----

  /** How many body bytes precede each flush. */
  function FlushesOut(log: seq<Wire>): seq<nat> {
    if log == [] then []
    else
      var front, e := log[..|log| - 1], log[|log| - 1];
      FlushesOut(front) + if e.Flushed? then [|Seen(front)|] else []
  }

  function FlushesAsked(cfg: Config, calls: seq<Call>, before: nat): seq<nat> {
    if calls == [] then []
    else
      (if calls[0].Flush? then [before] else [])
      + FlushesAsked(cfg, calls[1..], before + |BodyOf(cfg, calls[0])|)
  }

  lemma FlushesPush(log: seq<Wire>, e: Wire)
    ensures FlushesOut(log + [e]) == FlushesOut(log) + if e.Flushed? then [|Seen(log)|] else []
  {
    assert (log + [e])[..|log|] == log;
  }

  lemma NoFlushPush(log: seq<Wire>, e: Wire)
    requires !e.Flushed?
    ensures FlushesOut(log + [e]) == FlushesOut(log)
  {
    FlushesPush(log, e);
  }

  /** A streaming response that is handled and has a type. */
  predicate Streams(cfg: Config, resp: Response) {
    !cfg.buffered && !Unhandled(cfg, resp) && !resp.LacksType()
  }

  lemma CompleteFlushes(f: Fetch, cfg: Config, resp: Response, length: Length, text: Bytes)
    requires Kept(f, cfg, resp, length, text, true) && Streams(cfg, resp)
    ensures FlushesOut(AfterComplete(f, cfg).writer.log) == FlushesOut(f.writer.log)
  {
    if !f.flags.headersComplete {
      var e := HeadersOut(resp.WithDefaultCaching(), length);
      NoFlushPush([], e);
      assert AfterComplete(f, cfg).writer.log == [] + [e];
    }
  }

  lemma EmitFlushes(f: Fetch, cfg: Config, bytes: Bytes)
    ensures FlushesOut(AfterHandleWrite(f, cfg, bytes).writer.log) == FlushesOut(f.writer.log)
  {
    NoFlushPush(f.writer.log, Body(bytes));
  }

  lemma MappedFlushes(f: Fetch, cfg: Config, p: Policy, span: Bytes, luck: MappedLuck,
                      resp: Response, length: Length, text: Bytes)
    requires Kept(f, cfg, resp, length, text, true) && Borrowed(luck, p, span) && f.flags.headersComplete
    requires Streams(cfg, resp) && !TornCall(cfg, p, resp, WriteMapped(span, luck))
    ensures FlushesOut(AfterWriteMapped(f, cfg, p, span, luck).writer.log) == FlushesOut(f.writer.log)
  {
    var r := RenewLeaseStrict(luck.region, p).r;
    CopyIsOriginal(luck.region, p, span, luck.weather);
    CopyIsOriginal(r, p, span, luck.weather);
    NoFlushPush(f.writer.log, Body(span));
    if !r.moved {
      AliasedIsOriginal(r, p, span, luck);
    }
  }

  lemma FlushMarks(f: Fetch, cfg: Config, resp: Response, length: Length, text: Bytes)
    requires Kept(f, cfg, resp, length, text, true) && f.flags.headersComplete && Streams(cfg, resp)
    ensures FlushesOut(AfterFlush(f, cfg).writer.log) == FlushesOut(f.writer.log) + [|text|]
  {
    FlushesPush(f.writer.log, Flushed);
  }

  lemma CallFlushesLater(f: Fetch, cfg: Config, p: Policy, call: Call, resp: Response, length: Length, text: Bytes)
    requires Kept(f, cfg, resp, length, text, true) && Allowed(call, p) && f.flags.headersComplete
    requires Streams(cfg, resp) && !TornCall(cfg, p, resp, call)
    ensures FlushesOut(DoCall(f, cfg, p, call).writer.log)
         == FlushesOut(f.writer.log) + if call.Flush? then [|text|] else []
  {
    match call
    case CompleteHeaders =>
    case WriteText(bytes) => EmitFlushes(f, cfg, bytes);
    case WriteMapped(bytes, luck) => MappedFlushes(f, cfg, p, bytes, luck, resp, length, text);
    case Flush => FlushMarks(f, cfg, resp, length, text);
  }

  lemma CallAfterHeaders(f: Fetch, cfg: Config, p: Policy, call: Call)
    requires Allowed(call, p)
    ensures DoCall(f, cfg, p, call) == (if Completes(call) then DoCall(AfterComplete(f, cfg), cfg, p, call) else f)
  {
    if call.WriteMapped? {
      HeadersFirst(f, cfg, p, call.bytes, call.luck);
    }
  }

  lemma CallFlushes(f: Fetch, cfg: Config, p: Policy, call: Call, resp: Response, length: Length, text: Bytes)
    requires Kept(f, cfg, resp, length, text, true) && Allowed(call, p)
    requires Streams(cfg, resp) && !TornCall(cfg, p, resp, call)
    ensures FlushesOut(DoCall(f, cfg, p, call).writer.log)
         == FlushesOut(f.writer.log) + if call.Flush? then [|text|] else []
  {
    CallAfterHeaders(f, cfg, p, call);
    if Completes(call) {
      CompleteKeeps(f, cfg, resp, length, text, true);
      CompleteFlushes(f, cfg, resp, length, text);
      CallFlushesLater(AfterComplete(f, cfg), cfg, p, call, resp, length, text);
    }
  }

  lemma FlushesNext(f: Fetch, cfg: Config, p: Policy, call: Call, resp: Response, length: Length, text: Bytes)
      returns (g: Fetch)
    requires Kept(f, cfg, resp, length, text, true) && Allowed(call, p)
    requires Streams(cfg, resp) && !TornCall(cfg, p, resp, call)
    ensures g == DoCall(f, cfg, p, call) && Kept(g, cfg, resp, length, text + BodyOf(cfg, call), true)
    ensures FlushesOut(g.writer.log) == FlushesOut(f.writer.log) + if call.Flush? then [|text|] else []
  {
    g := DoCall(f, cfg, p, call);
    CallKeeps(f, cfg, p, call, resp, length, text, true);
    CallFlushes(f, cfg, p, call, resp, length, text);
  }

  lemma RegroupMarks(a: seq<nat>, b: seq<nat>, c: seq<nat>)
    ensures (a + b) + c == a + (b + c)
  {
  }

  lemma {:induction false} CallsFlush(f: Fetch, cfg: Config, p: Policy, calls: seq<Call>,
                                      resp: Response, length: Length, text: Bytes)
    requires Kept(f, cfg, resp, length, text, true) && AllAllowed(calls, p)
    requires Streams(cfg, resp) && !AnyTorn(cfg, p, resp, calls)
    ensures FlushesOut(DoCalls(f, cfg, p, calls).writer.log)
         == FlushesOut(f.writer.log) + FlushesAsked(cfg, calls, |text|)
    decreases |calls|
  {
    if calls == [] {
      assert FlushesOut(f.writer.log) + [] == FlushesOut(f.writer.log);
    } else {
      var call, rest := calls[0], calls[1..];
      AnyCons(cfg, p, resp, calls);
      var g := FlushesNext(f, cfg, p, call, resp, length, text);
      assert DoCalls(f, cfg, p, calls) == DoCalls(g, cfg, p, rest);
      CallsFlush(g, cfg, p, rest, resp, length, text + BodyOf(cfg, call));
      RegroupMarks(FlushesOut(f.writer.log), if call.Flush? then [|text|] else [],
                   FlushesAsked(cfg, rest, |text| + |BodyOf(cfg, call)|));
    }
  }

  /** Every flush that the producer asks of a streaming response reaches the client, after
      the bytes that it was asked after. */
  lemma FlushesReachClient(cfg: Config, p: Policy, resp: Response, length: Length, calls: seq<Call>)
    requires AllAllowed(calls, p) && Streams(cfg, resp) && !AnyTorn(cfg, p, resp, calls)
    ensures var log := DoCalls(NewFetch(resp, length), cfg, p, calls).writer.log;
            FlushesOut(log) == FlushesAsked(cfg, calls, 0)
  {
    CallsFlush(NewFetch(resp, length), cfg, p, calls, resp, length, []);
  }
}
