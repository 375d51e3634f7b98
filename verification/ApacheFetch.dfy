/** The fetch that answers an Apache request, buffered or streaming, and the writer it
    sends through. */
module ApacheFetching {
  import opened ByteStreams
  import opened MappedRegions
  import opened MmapBuckets
  import opened ZeroCopyServes

  const NOT_MODIFIED: nat := 304
  const NO_CONTENT: nat := 204
  const FORBIDDEN: nat := 403
  const NOT_FOUND: nat := 404
  const INTERNAL_ERROR: nat := 500
  const OK_STATUS: nat := 200

  function Ascii(s: string): Bytes {
    seq(|s|, i requires 0 <= i < |s| => (s[i] as int % 256) as Byte)
  }

  const MISSING_TYPE: Bytes := Ascii("Missing Content-Type required for proxied resource")

  // Where a response's Cache-Control is from.
  datatype Caching = Absent | FromOrigin | NoCache

  datatype Response = Response(status: nat, hasContentType: bool, caching: Caching) {
    predicate IsOk() {
      0 < status < 400
    }

    /** Such responses need neither a type nor a Cache-Control. */
    predicate Bodiless() {
      status == NOT_MODIFIED || status == NO_CONTENT
    }

    predicate LacksType() {
      !Bodiless() && !hasContentType
    }

    function WithDefaultCaching(): Response {
      if !Bodiless() && caching == Absent then this.(caching := NoCache) else this
    }
  }

  datatype Length = UnknownLength | KnownLength(n: int)

  // What reaches the connection, in order.
  datatype Wire = HeadersOut(resp: Response, length: Length) | Body(bytes: Bytes) | Flushed | Aborted

  datatype Writer = Writer(headersOut: bool, length: Length, log: seq<Wire>)

  const NEW_WRITER := Writer(false, UnknownLength, [])

  function Put(w: Writer, event: Wire): Writer {
    w.(log := w.log + [event])
  }

  function PutHeaders(w: Writer, resp: Response): Writer {
    if w.headersOut then w else Put(w, HeadersOut(resp, w.length)).(headersOut := true)
  }

  datatype Config = Config(buffered: bool, handleError: bool, isHead: bool, optedIn: bool)

  datatype Flags = Flags(headersComplete: bool, headersSent: bool, statusOk: bool, squelch: bool)

  datatype Fetch = Fetch(resp: Response, length: Length, flags: Flags, output: Bytes, writer: Writer)

  function NewFetch(resp: Response, length: Length): Fetch {
    Fetch(resp, length, Flags(false, false, false, false), [], NEW_WRITER)
  }

  function AfterHeaders(f: Fetch, cfg: Config): Fetch {
    var ok := f.resp.IsOk();
    if !cfg.handleError && !ok then f.(flags := f.flags.(statusOk := ok, squelch := true))
    else if f.resp.LacksType() then
      var resp := Response(FORBIDDEN, true, NoCache);
      var w := PutHeaders(f.writer, resp);
      Fetch(resp, f.length, Flags(f.flags.headersComplete, true, false, true),
            if cfg.buffered then MISSING_TYPE else f.output,
            if cfg.buffered then w else Put(w, Body(MISSING_TYPE)))
    else
      var resp := f.resp.WithDefaultCaching();
      var w := if f.length.KnownLength? then f.writer.(length := f.length) else f.writer;
      f.(resp := resp, flags := f.flags.(headersSent := true, statusOk := ok), writer := PutHeaders(w, resp))
  }

  function AfterComplete(f: Fetch, cfg: Config): Fetch {
    if f.flags.headersComplete then f
    else
      var g := f.(flags := f.flags.(headersComplete := true));
      if cfg.buffered then g else AfterHeaders(g, cfg)
  }

  /** HandleWrite. */
  function AfterHandleWrite(f: Fetch, cfg: Config, bytes: Bytes): Fetch {
    if f.flags.squelch then f
    else if cfg.buffered then f.(output := f.output + bytes)
    else f.(writer := Put(f.writer, Body(bytes)))
  }

  function AfterWrite(f: Fetch, cfg: Config, bytes: Bytes): Fetch {
    if bytes == [] then f
    else
      var g := AfterComplete(f, cfg);
      if cfg.isHead then g else AfterHandleWrite(g, cfg, bytes)
  }

  function AfterFlush(f: Fetch, cfg: Config): Fetch {
    var g := AfterComplete(f, cfg);
    if g.flags.squelch || cfg.buffered then g else g.(writer := Put(g.writer, Flushed))
  }

  /** The response that a failed fetch whose headers are not complete ends with. */
  function FailedResponse(resp: Response): Response {
    if resp.status == 0 then resp.(status := NOT_FOUND)
    else if resp.status == OK_STATUS then Response(INTERNAL_ERROR, false, Absent)
    else resp
  }

  function AfterDone(f: Fetch, cfg: Config, success: bool): Fetch {
    AfterComplete(if f.flags.headersComplete || success then f else f.(resp := FailedResponse(f.resp)), cfg)
  }

  /** What Wait does once the fetch is done. */
  function AfterWait(f: Fetch, cfg: Config): Fetch {
    if !cfg.buffered then f
    else
      var g := AfterHeaders(f, cfg);
      if g.flags.headersSent && g.output != [] then g.(writer := Put(g.writer, Body(g.output))) else g
  }

  // ----- Mapped writes -----

  /** What a mapped write meets: the region, whether the output chain is verbatim, a
      bucket can be made, what becomes of its serve, and what happens during a copy. */
  datatype MappedLuck = MappedLuck(
    region: Region,
    verbatim: bool,
    bucketMade: bool,
    acts: seq<Act>,
    weather: nat -> seq<Event>)

  ghost predicate Borrowed(luck: MappedLuck, p: Policy, span: Bytes) {
    && |luck.region.bytes| == |span| && (!luck.region.moved ==> luck.region.bytes == span)
    && p.ceiling >= READ_MARGIN
  }

  predicate MayAlias(f: Fetch, cfg: Config, luck: MappedLuck) {
    cfg.optedIn && !cfg.buffered && f.flags.headersSent && f.resp.status == OK_STATUS && luck.verbatim
  }

  /** How the writer's aliased serve went: the bytes the client got, and whether the
      brigade was consumed without an error. */
  datatype Served = Served(bytes: Bytes, whole: bool)

  function ServeAliased(r: Region, p: Policy, span: Bytes, luck: MappedLuck): Served
    requires !r.moved && r.bytes == span && p.ceiling >= READ_MARGIN
  {
    if !luck.bucketMade then Served([], false)
    else
      StartKept(r);
      var s := DoActs(Start(r), p, luck.acts, span);
      Served(s.wire, !s.failed && s.brigade == [])
  }

  function Poisoned(f: Fetch): Fetch {
    f.(resp := Response(INTERNAL_ERROR, f.resp.hasContentType, Absent), length := UnknownLength,
       output := [], flags := f.flags.(squelch := true))
  }

  function AfterCopiedWrite(f: Fetch, cfg: Config, p: Policy, r: Region, luck: MappedLuck): Fetch {
    var v := CopyVerified(r, p, luck.weather);
    if v.intact then AfterWrite(f, cfg, v.bytes)
    else if f.flags.headersSent then f.(writer := Put(f.writer, Aborted))
    else Poisoned(f)
  }

  function AfterAliasedWrite(f: Fetch, p: Policy, r: Region, span: Bytes, luck: MappedLuck): Fetch
    requires !r.moved && r.bytes == span && p.ceiling >= READ_MARGIN
  {
    var served := ServeAliased(r, p, span, luck);
    var w := Put(f.writer, Body(served.bytes));
    f.(writer := if served.whole then w else Put(w, Aborted))
  }

  function AfterWriteMapped(f: Fetch, cfg: Config, p: Policy, span: Bytes, luck: MappedLuck): Fetch
    requires Borrowed(luck, p, span)
  {
    var g := AfterComplete(f, cfg);
    if span == [] || cfg.isHead || g.flags.squelch then g
    else if !MayAlias(g, cfg, luck) then AfterCopiedWrite(g, cfg, p, luck.region, luck)
    else
      var v := RenewLeaseStrict(luck.region, p);
      if v.verdict == Ok && ForcedWrapBeyond(v.r, EMIT_MARGIN) then AfterAliasedWrite(g, p, v.r, span, luck)
      else if v.verdict == Torn then g.(writer := Put(g.writer, Aborted))
      else AfterCopiedWrite(g, cfg, p, v.r, luck)
  }

  // ----- The classes -----

  class ApacheWriter {
    var headersOut: bool
    var contentLength: Length
    var log: seq<Wire>

    ghost function View(): Writer
      reads this
    {
      Writer(headersOut, contentLength, log)
    }

    constructor ()
      ensures View() == NEW_WRITER
    {
      headersOut, contentLength, log := false, UnknownLength, [];
    }

    method OutputHeaders(resp: Response)
      requires !headersOut
      modifies this
      ensures View() == PutHeaders(old(View()), resp)
    {
      headersOut := true;
      log := log + [HeadersOut(resp, contentLength)];
    }

    method Write(bytes: Bytes)
      requires headersOut
      modifies this
      ensures View() == Put(old(View()), Body(bytes))
    {
      log := log + [Body(bytes)];
    }

    method Flush()
      requires headersOut
      modifies this
      ensures View() == Put(old(View()), Flushed)
    {
      log := log + [Flushed];
    }

    method AbortConnection()
      modifies this
      ensures View() == Put(old(View()), Aborted)
    {
      log := log + [Aborted];
    }

    /** Passes an aliasing bucket down the chain; anything but a brigade consumed without
        an error aborts the connection. */
    method WriteMappedAliased(r: Region, p: Policy, span: Bytes, luck: MappedLuck) returns (ok: bool)
      requires headersOut && !r.moved && r.bytes == span && p.ceiling >= READ_MARGIN
      modifies this
      ensures var served := ServeAliased(r, p, span, luck);
              && ok == served.whole
              && View() == (var w := Put(old(View()), Body(served.bytes)); if served.whole then w else Put(w, Aborted))
    {
      var served := ServeAliased(r, p, span, luck);
      log := log + [Body(served.bytes)];
      if !served.whole {
        AbortConnection();
      }
      return served.whole;
    }
  }

  class ApacheFetch {
    const cfg: Config
    const apacheWriter: ApacheWriter
    var response: Response
    var contentLength: Length
    var headersComplete: bool
    var headersSent: bool
    var statusOk: bool
    var squelchOutput: bool
    var outputBytes: Bytes

    ghost function View(): Fetch
      reads this, apacheWriter
    {
      Fetch(response, contentLength,
            Flags(headersComplete, headersSent, statusOk, squelchOutput),
            outputBytes, apacheWriter.View())
    }

    /** Headers go out once, when they are complete or, if the output is buffered, at the
        end; what may be written is written after them. */
    ghost predicate Valid()
      reads this, apacheWriter
    {
      && apacheWriter.headersOut == headersSent
      && (cfg.buffered || !headersComplete ==> !headersSent)
      && (!cfg.buffered && headersComplete ==> headersSent || squelchOutput)
    }

    constructor (cfg: Config, response: Response, contentLength: Length)
      ensures Valid() && View() == NewFetch(response, contentLength) && this.cfg == cfg && fresh(apacheWriter)
    {
      this.cfg, this.response, this.contentLength := cfg, response, contentLength;
      headersComplete, headersSent, statusOk, squelchOutput, outputBytes := false, false, false, false, [];
      apacheWriter := new ApacheWriter();
    }

    method SendOutHeaders()
      requires !apacheWriter.headersOut && !headersSent
      modifies this, apacheWriter
      ensures View() == AfterHeaders(old(View()), cfg)
      ensures apacheWriter.headersOut == headersSent && (headersSent || squelchOutput)
    {
      var statusCode := response.status;
      statusOk := statusCode != 0 && statusCode < 400;
      if !cfg.handleError && !statusOk {
        squelchOutput := true;
        return;
      }
      var missing := false;
      if statusCode != NOT_MODIFIED && statusCode != NO_CONTENT && !response.hasContentType {
        statusCode := FORBIDDEN;
        statusOk := false;
        response := Response(FORBIDDEN, true, Absent);
        missing := true;
      }
      if statusCode != NOT_MODIFIED && statusCode != NO_CONTENT && response.caching == Absent {
        response := response.(caching := NoCache);
      }
      if contentLength.KnownLength? && !missing {
        apacheWriter.contentLength := contentLength;
      }
      apacheWriter.OutputHeaders(response);
      headersSent := true;
      if missing {
        if cfg.buffered {
          outputBytes := MISSING_TYPE;
        } else {
          apacheWriter.Write(MISSING_TYPE);
        }
        squelchOutput := true;
      }
    }

    method HeadersComplete()
      requires Valid() && !headersComplete
      modifies this, apacheWriter
      ensures Valid() && View() == AfterComplete(old(View()), cfg) && headersComplete
    {
      headersComplete := true;
      if !cfg.buffered {
        SendOutHeaders();
      }
    }

    method HandleWrite(bytes: Bytes)
      requires Valid() && headersComplete
      modifies this, apacheWriter
      ensures Valid() && View() == AfterHandleWrite(old(View()), cfg, bytes) && headersComplete
    {
      if squelchOutput {
        return;
      }
      if cfg.buffered {
        outputBytes := outputBytes + bytes;
      } else {
        apacheWriter.Write(bytes);
      }
    }

    method Write(bytes: Bytes)
      requires Valid()
      modifies this, apacheWriter
      ensures Valid() && View() == AfterWrite(old(View()), cfg, bytes)
    {
      if bytes != [] {
        if !headersComplete {
          HeadersComplete();
        }
        if !cfg.isHead {
          HandleWrite(bytes);
        }
      }
    }

    method Flush()
      requires Valid()
      modifies this, apacheWriter
      ensures Valid() && View() == AfterFlush(old(View()), cfg)
    {
      if !headersComplete {
        HeadersComplete();
      }
      if !squelchOutput && !cfg.buffered {
        apacheWriter.Flush();
      }
    }

    method Done(success: bool)
      requires Valid()
      modifies this, apacheWriter
      ensures Valid() && View() == AfterDone(old(View()), cfg, success) && headersComplete
    {
      if !headersComplete {
        if !success {
          if response.status == 0 {
            response := response.(status := NOT_FOUND);
          } else if response.status == OK_STATUS {
            response := Response(INTERNAL_ERROR, false, Absent);
          }
        }
        HeadersComplete();
      }
    }

    /** The end of Wait, on the request thread. */
    method Wait()
      requires Valid() && headersComplete
      modifies this, apacheWriter
      ensures View() == AfterWait(old(View()), cfg)
    {
      if cfg.buffered {
        SendOutHeaders();
        if headersSent && outputBytes != [] {
          apacheWriter.Write(outputBytes);
        }
      }
    }

    method WriteMapped(p: Policy, span: Bytes, luck: MappedLuck)
      requires Valid() && Borrowed(luck, p, span)
      modifies this, apacheWriter
      ensures Valid() && View() == AfterWriteMapped(old(View()), cfg, p, span, luck)
    {
      if !headersComplete {
        HeadersComplete();
      }
      if span == [] || cfg.isHead || squelchOutput {
        return;
      }
      var region := luck.region;
      if cfg.optedIn && !cfg.buffered && headersSent && response.status == OK_STATUS && luck.verbatim {
        var v := RenewLeaseStrict(region, p);
        region := v.r;
        if v.verdict == Ok && ForcedWrapBeyond(region, EMIT_MARGIN) {
          var _ := apacheWriter.WriteMappedAliased(region, p, span, luck);
          return;
        }
        if v.verdict == Torn {
          apacheWriter.AbortConnection();
          return;
        }
      }
      var owned := CopyVerified(region, p, luck.weather);
      if owned.intact {
        Write(owned.bytes);
      } else if headersSent {
        apacheWriter.AbortConnection();
      } else {
        response := Response(INTERNAL_ERROR, response.hasContentType, Absent);
        contentLength := UnknownLength;
        outputBytes := [];
        squelchOutput := true;
      }
    }
  }
}
