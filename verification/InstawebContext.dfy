/** The Apache output filter's input side: the flush window that cuts what it is given,
    the detector that holds leading blanks back, and the parser or the output that the
    bytes end up in. */
module HtmlInput {
  import opened ByteStreams
  import opened HtmlDetection

  // How much is parsed between flushes of the driver.
  const WINDOW: nat := 0x10_0000

  // What the driver is asked to do.
  datatype Event = ParseText(text: Bytes) | FlushDriver | FinishParse

  /** The driver, as far as its caller depends on it: whether it accepts the document,
      and whether it still holds its events back after what it was asked so far. */
  datatype DriverTraits = DriverTraits(accepts: bool, holdsBack: seq<Event> -> bool)

  /** `output` holds what the context itself puts out, `sent` what was taken from it. */
  datatype Context = Context(
    sniff: Sniff,
    started: bool,
    sinceFlush: nat,
    log: seq<Event>,
    output: Bytes,
    sent: Bytes)

  const NEW_CONTEXT := Context(FRESH, false, 0, [], [], [])

  // ----- What each operation does -----

  function Deliver(c: Context, text: Bytes): Context {
    if c.started then c.(log := c.log + [ParseText(text)]) else c.(output := c.output + text)
  }

  function Process(c: Context, d: DriverTraits, text: Bytes): Context {
    if c.sniff.decided then Deliver(c, text)
    else
      var s := Consider(c.sniff, text);
      if !s.decided then c.(sniff := s)
      else
        var e := c.(sniff := s.(held := []), started := s.html && d.accepts);
        Deliver(if s.held == [] then e else Deliver(e, s.held), text)
  }

  predicate CanFlush(c: Context, d: DriverTraits) {
    c.started && c.sniff.decided && !d.holdsBack(c.log)
  }

  function FlushContext(c: Context, d: DriverTraits): Context {
    if c.sniff.decided && c.started then
      c.(log := c.log + [FlushDriver], sinceFlush := if d.holdsBack(c.log) then c.sinceFlush else 0)
    else c
  }

  /** The flush, if any, that comes before the next piece. */
  function Before(c: Context, d: DriverTraits): Context {
    if c.sinceFlush >= WINDOW && CanFlush(c, d) then FlushContext(c, d).(sinceFlush := 0) else c
  }

  function Room(c: Context): (n: nat)
    ensures 1 <= n <= WINDOW
  {
    if c.sinceFlush < WINDOW then WINDOW - c.sinceFlush else WINDOW
  }

  function Counted(c: Context, n: nat): Context {
    c.(sinceFlush := c.sinceFlush + n)
  }

  /** One turn of the window's loop: a flush if one is due, then a piece. */
  function AddPiece(c: Context, d: DriverTraits, piece: Bytes): Context {
    Counted(Process(Before(c, d), d, piece), |piece|)
  }

  function Add(c: Context, d: DriverTraits, data: Bytes): Context
    decreases |data|
  {
    if data == [] then c
    else
      var n := Min(|data|, Room(Before(c, d)));
      Add(AddPiece(c, d, data[..n]), d, data[n..])
  }

  function Drain(c: Context): Context {
    c.(sent := c.sent + c.output, output := [])
  }

  /** Undecided to the end: what was held replaces the output. */
  function FinishContext(c: Context): Context {
    var e := if c.sniff.decided then c else c.(output := c.sniff.held, sniff := c.sniff.(held := []));
    if e.started then e.(log := e.log + [FinishParse]) else e
  }

  /** What the server calls, in any order: a bucket of data, a flush bucket, and taking
      the output. */
  datatype Call = Data(bytes: Bytes) | OriginFlush | TakeOutput

  function DoCall(c: Context, d: DriverTraits, call: Call): Context {
    match call
    case Data(bytes) => Add(c, d, bytes)
    case OriginFlush => FlushContext(c, d)
    case TakeOutput => Drain(c)
  }

  function DoCalls(c: Context, d: DriverTraits, calls: seq<Call>): Context
    decreases |calls|
  {
    if calls == [] then c else DoCalls(DoCall(c, d, calls[0]), d, calls[1..])
  }

  function Input(calls: seq<Call>): Bytes {
    if calls == [] then [] else (if calls[0].Data? then calls[0].bytes else []) + Input(calls[1..])
  }

  // ----- The classes -----

  class RewriteDriver {
    const traits: DriverTraits
    var log: seq<Event>

    constructor (traits: DriverTraits)
      ensures log == [] && this.traits == traits
    {
      this.traits, log := traits, [];
    }

    predicate EventsAreHeldBack()
      reads this
    {
      traits.holdsBack(log)
    }

    method Ask(event: Event)
      modifies this
      ensures log == old(log) + [event]
    {
      log := log + [event];
    }
  }

  class HtmlFlushWindow {
    var sinceFlush: nat

    constructor ()
      ensures sinceFlush == 0
    {
      sinceFlush := 0;
    }

    /** A flush happened some other way. */
    method Flushed()
      modifies this
      ensures sinceFlush == 0
    {
      sinceFlush := 0;
    }

    /** Flushes a full window if that would release anything, and says how much of
        `size` bytes may be parsed next. */
    method MakeRoom(sink: InstawebContext, size: nat) returns (piece: nat)
      requires sink.Valid() && sink.window == this && size > 0
      modifies sink.driver, this
      ensures sink.Valid() && sink.View() == Before(old(sink.View()), sink.driver.traits)
      ensures piece == Min(size, Room(sink.View())) && 1 <= piece <= size
    {
      if sinceFlush >= WINDOW && sink.CanFlush() {
        sink.Flush();
        sinceFlush := 0;
      }
      var room := if sinceFlush < WINDOW then WINDOW - sinceFlush else WINDOW;
      return Min(size, room);
    }

    /** Cuts `data` into pieces for the sink and flushes between them. */
    method AddTo(sink: InstawebContext, data: Bytes)
      requires sink.Valid() && sink.window == this
      modifies sink, sink.driver, sink.detector, this
      ensures sink.Valid() && sink.View() == Add(old(sink.View()), sink.driver.traits, data)
    {
      ghost var d := sink.driver.traits;
      ghost var all := Add(sink.View(), d, data);
      var rest := data;
      while rest != []
        invariant sink.Valid() && Add(sink.View(), d, rest) == all
        decreases |rest|
      {
        var piece := MakeRoom(sink, |rest|);
        sink.ProcessBytes(rest[..piece]);
        sinceFlush := sinceFlush + piece;
        rest := rest[piece..];
      }
    }
  }

  class InstawebContext {
    const driver: RewriteDriver
    const detector: HtmlDetector
    const window: HtmlFlushWindow
    var startedParse: bool
    var output: Bytes
    var sent: Bytes

    ghost function Parts(): set<object> {
      {driver, detector, window}
    }

    ghost function View(): Context
      reads this, driver, detector, window
    {
      Context(detector.View(), startedParse, window.sinceFlush, driver.log, output, sent)
    }

    ghost predicate Valid()
      reads this, driver, detector, window
    {
      View().sniff.Valid() && (startedParse ==> detector.alreadyDecided)
    }

    constructor (traits: DriverTraits)
      ensures Valid() && View() == NEW_CONTEXT && driver.traits == traits
      ensures fresh(driver) && fresh(detector) && fresh(window)
    {
      driver := new RewriteDriver(traits);
      detector := new HtmlDetector();
      window := new HtmlFlushWindow();
      startedParse, output, sent := false, [], [];
    }

    predicate CanFlush()
      reads this, driver, detector
    {
      startedParse && detector.alreadyDecided && !driver.EventsAreHeldBack()
    }

    method ProcessBytes(input: Bytes)
      requires Valid()
      modifies this, driver, detector
      ensures Valid() && View() == Process(old(View()), driver.traits, input)
      decreases !detector.alreadyDecided
    {
      if !detector.alreadyDecided {
        var decided := detector.ConsiderInput(input);
        if decided {
          if detector.probableHtml {
            startedParse := driver.traits.accepts;
          }
          var buffer := detector.ReleaseBuffered();
          if buffer != [] {
            ProcessBytes(buffer);
          }
        }
      }
      if detector.alreadyDecided {
        if startedParse {
          driver.Ask(ParseText(input));
        } else {
          output := output + input;
        }
      }
    }

    method Rewrite(input: Bytes)
      requires Valid()
      modifies this, Parts()
      ensures Valid() && View() == Add(old(View()), driver.traits, input)
    {
      if |input| > 0 {
        window.AddTo(this, input);
      }
    }

    method Flush()
      requires Valid()
      modifies driver, window
      ensures Valid() && View() == FlushContext(old(View()), driver.traits)
    {
      if detector.alreadyDecided && startedParse {
        var releases := !driver.EventsAreHeldBack();
        driver.Ask(FlushDriver);
        if releases {
          window.Flushed();
        }
      }
    }

    method Finish()
      requires Valid()
      modifies this, driver, detector
      ensures Valid() && View() == FinishContext(old(View()))
    {
      if !detector.alreadyDecided {
        output := detector.ReleaseBuffered();
      }
      if startedParse {
        driver.Ask(FinishParse);
      }
    }

    /** The server sends the output and clears it. */
    method TakeOutput()
      requires Valid()
      modifies this
      ensures Valid() && View() == Drain(old(View()))
    {
      sent := sent + output;
      output := [];
    }
  }
}
