/** The steps of a fetch and of its lookup collector. Each step is one mutex-protected
    section, or one stretch of code between two of them that touches nothing shared,
    of one of four parties: the fetcher thread, the html worker's sequence, the
    collector's sequence, and the cache, timer and driver that call back. */
module FetchSteps {
  import opened ByteStreams
  import opened HtmlDetection
  import opened ProxyFetching
  import opened PropertyCollecting

  // Where the fetcher thread is.
  datatype Fetcher =
    | NotStarted
    | Rejecting
    | Between
    | Connecting(held: Bytes, str: Bytes)
    | Releasing(held: Bytes, str: Bytes)
    | Queueing(str: Bytes)
    | Detaching(success: bool, detach: bool)
    | Ending(success: bool)
    | Stopped

  // Where the html worker is.
  datatype Worker =
    | Resting
    | Running(taken: Taken)
    | FlushedInline
    | Nudging
    | Closing(success: bool)
    | Closed(success: bool, detach: bool)

  datatype ParseEnding = NotEnding | EndingParse(success: bool)

  // What the driver has been asked for, what it still owes, and the idle alarm.
  datatype Driver = Driver(flushAsked: bool, flushInFlight: bool, ending: ParseEnding, alarmArmed: bool)

  /** The fetch object, the two parties that call into it, what its driver and alarm
      still owe, and the record of what it was given and what it gave. */
  datatype ParseSide = ParseSide(
    f: Fetch,
    created: bool,
    deletes: nat,
    fetcher: Fetcher,
    worker: Worker,
    driver: Driver,
    written: Bytes,
    parsed: Bytes,
    passed: Bytes,
    baseDone: seq<bool>)

  /** The collector, its sequence, and the lookups still out in the cache. `offered`
      lists the post-lookup tasks handed to it. */
  datatype LookupSide = LookupSide(
    present: bool,
    c: Collector,
    tasks: seq<LookupTask>,
    lookups: set<nat>,
    deletes: nat,
    completions: nat,
    offered: seq<nat>)

  datatype System = System(p: ParseSide, l: LookupSide)

  datatype Step =
    | StartFetch | RejectFetch | FinishReject
    | WriteText(str: Bytes) | ContinueWrite | FlushText
    | EndFetch(success: bool) | ContinueEnd
    | RunHtmlTask | ParseBatch(asks: bool, heldBack: bool) | FinishInline | Nudge
    | BeginClose | EndClose
    | FlushEnds | ParseEnds | AlarmFires
    | LookupEnds(id: nat) | OfferTask(id: nat) | RunLookupTask

  function Initial(lookups: set<nat>): System {
    System(
      ParseSide(NewFetch(lookups != {}), false, 0, NotStarted, Resting, Driver(false, false, NotEnding, false),
                [], [], [], []),
      LookupSide(lookups != {}, NewCollector(lookups), [], lookups, 0, 0, []))
  }

  // ----- The fetcher thread -----

  function Write(p: ParseSide, cfg: Config, str: Bytes): ParseSide
  {
    var Considered(g, outcome) := ConsiderWrite(p.f, cfg, str);
    var q := p.(f := g, written := p.written + str);
    match outcome
    case Dropped => q
    case Held => q
    case Starts(held) => q.(fetcher := Connecting(held, str))
    case Parses => q.(f := AddText(g, cfg, str))
    case Passes(bytes) => q.(passed := p.passed + bytes)
  }

  function Continue(p: ParseSide, cfg: Config): ParseSide {
    match p.fetcher
    case Connecting(held, str) => p.(fetcher := Releasing(held, str))
    case Releasing(held, str) => p.(f := if held == [] then p.f else AddText(p.f, cfg, held), fetcher := Queueing(str))
    case Queueing(str) => p.(f := AddText(p.f, cfg, str), fetcher := Between)
    case _ => p
  }

  function NoteFlush(p: ParseSide, cfg: Config): ParseSide {
    if p.f.life.startedParse then p.(f := AddFlush(p.f, cfg)) else p
  }

  function End(p: ParseSide, cfg: Config, success: bool): ParseSide {
    var Released(g, released) := ReleaseUndecided(p.f, cfg, success);
    if p.f.life.startedParse then
      p.(f := AddDone(g, success), fetcher := Stopped)
    else
      p.(f := BeginFinish(g), passed := p.passed + released, fetcher := Detaching(success, g.gate.awaitingLookup))
  }

  /** Deregisters, tells the base fetch and deletes the fetch. */
  function Destroy(p: ParseSide, success: bool): ParseSide {
    p.(f := p.f.(life := p.f.life.(hasDriver := false)), baseDone := p.baseDone + [success], deletes := p.deletes + 1)
  }

  function GoOnEnding(p: ParseSide): ParseSide {
    match p.fetcher
    case Detaching(success, _) => p.(fetcher := Ending(success))
    case Ending(success) => Destroy(p, success).(fetcher := Stopped)
    case _ => p
  }

  // ----- The html worker's sequence -----

  function WithoutAlarm(tasks: seq<HtmlTask>): seq<HtmlTask> {
    if tasks == [] then []
    else (if tasks[0] == IdleAlarm then [] else [tasks[0]]) + WithoutAlarm(tasks[1..])
  }

  /** A cancelled alarm never fires, even when it is already on the sequence. */
  function CancelAlarm(p: ParseSide): ParseSide {
    p.(driver := p.driver.(alarmArmed := false), f := p.f.(tasks := WithoutAlarm(p.f.tasks)))
  }

  function QueueAlarm(p: ParseSide, cfg: Config): ParseSide {
    if cfg.flushHtml && cfg.idleFlush then
      var q := CancelAlarm(p);
      q.(driver := q.driver.(alarmArmed := true))
    else
      p
  }

  function TakeUp(p: ParseSide, cfg: Config): ParseSide
    requires p.f.tasks != []
  {
    var Taking(g, t) := TakeBatch(p.f.(tasks := p.f.tasks[1..]), cfg);
    p.(f := g, worker := Running(t))
  }

  function RunOther(p: ParseSide): ParseSide
    requires p.f.tasks != [] && p.f.tasks[0] != RunQueued
  {
    var f := p.f.(tasks := p.f.tasks[1..]);
    match p.f.tasks[0]
    case FlushFinished =>
      p.(f := EndFlush(f))
    case IdleAlarm =>
      var idle := !f.gate.waitingForFlush && !f.owed.doneOutstanding && !f.life.finishing;
      p.(f := f, worker := if idle then Nudging else Resting)
    case ParseFinished(success) =>
      p.(f := f.(life := f.life.(hasDriver := false)), worker := Closing(success))
  }

  /** ExecuteQueued after its locked section. `asks`: a filter asked for a flush while
      the text was parsed. `heldBack`: the driver runs the flush callback at once. */
  function Parse(p: ParseSide, cfg: Config, t: Taken, asks: bool, heldBack: bool): ParseSide {
    AfterText(ParseText(p, t, asks), cfg, t, heldBack)
  }

  function ParseText(p: ParseSide, t: Taken, asks: bool): ParseSide {
    p.(
      parsed := p.parsed + Flatten(t.batch),
      driver := p.driver.(flushAsked := p.driver.flushAsked || asks || (t.doFlush && t.force)))
  }

  function AfterText(p: ParseSide, cfg: Config, t: Taken, heldBack: bool): ParseSide {
    if t.doFlush then
      if p.driver.flushAsked then StartFlush(CancelAlarm(p), heldBack)
      else QueueAlarm(p, cfg).(worker := FlushedInline)
    else if t.doFinish then
      CancelAlarm(p).(worker := Closing(t.result))
    else
      QueueAlarm(p, cfg).(worker := Resting)
  }

  function StartFlush(p: ParseSide, heldBack: bool): ParseSide {
    if heldBack then p.(driver := p.driver.(flushAsked := false), worker := FlushedInline)
    else p.(driver := p.driver.(flushAsked := false, flushInFlight := true), worker := Resting)
  }

  function LockedClose(p: ParseSide, success: bool): ParseSide {
    p.(f := BeginFinish(p.f), worker := Closed(success, p.f.gate.awaitingLookup))
  }

  function UnlockedClose(p: ParseSide, success: bool): ParseSide {
    if p.f.life.hasDriver && p.f.life.startedParse then
      p.(driver := p.driver.(flushAsked := false, ending := EndingParse(success)), worker := Resting)
    else
      Destroy(p, success).(worker := Resting)
  }

  /** FlushDone called from within ExecuteQueued. */
  function InlineDone(p: ParseSide): ParseSide {
    p.(f := EndFlush(p.f), worker := Resting)
  }

  /** HandleIdleAlarm after its locked check. */
  function NudgeFlush(p: ParseSide, cfg: Config): ParseSide {
    p.(f := AddFlush(p.f, cfg), driver := p.driver.(flushAsked := true), worker := Resting)
  }

  // ----- The driver and the alarm -----

  function PostHtml(p: ParseSide, driver: Driver, task: HtmlTask): ParseSide {
    p.(driver := driver, f := p.f.(tasks := p.f.tasks + [task]))
  }

  function FlushEnded(p: ParseSide): ParseSide {
    PostHtml(p, p.driver.(flushInFlight := false), FlushFinished)
  }

  function ParseEnded(p: ParseSide): ParseSide
    requires p.driver.ending.EndingParse?
  {
    PostHtml(p, p.driver.(ending := NotEnding), ParseFinished(p.driver.ending.success))
  }

  function AlarmFired(p: ParseSide): ParseSide {
    PostHtml(p, p.driver.(alarmArmed := false), IdleAlarm)
  }

  // ----- The collector's sequence -----

  function Post(l: LookupSide, task: LookupTask, really: bool): LookupSide {
    if really then l.(tasks := l.tasks + [task]) else l
  }

  /** The collector after its next task. PropertyCacheComplete deletes the collector
      that the fetch points to, if any. */
  function AfterTask(l: LookupSide, pointedTo: bool): LookupSide
    requires l.tasks != []
  {
    var Ran(c, outcome) := RunTask(l.c, l.tasks[0]);
    var m := l.(c := c, tasks := l.tasks[1..]);
    match outcome
    case Stays => m
    case DeletesItself => m.(deletes := m.deletes + 1)
    case CompletesFetch => m.(completions := m.completions + 1, deletes := m.deletes + if pointedTo then 1 else 0)
  }

  predicate CompletesNext(l: LookupSide)
    requires l.tasks != []
  {
    RunTask(l.c, l.tasks[0]).outcome.CompletesFetch?
  }

  function RunLookup(s: System): System
    requires s.l.tasks != []
  {
    var p := if CompletesNext(s.l) then s.p.(f := CompleteLookup(s.p.f)) else s.p;
    System(p, AfterTask(s.l, s.p.f.gate.awaitingLookup))
  }

  // ----- Steps -----

  /** Detach has been called. */
  predicate DetachCalled(l: LookupSide) {
    l.c.stage.detached || Detach in l.tasks
  }

  /** ConnectProxyFetch has been called. */
  predicate ConnectCalled(l: LookupSide) {
    l.c.stage.connected || Connect in l.tasks
  }

  /** A post-lookup task may be offered until Detach is called, as long as the collector is
      known to live: a lookup is out, or nothing may delete it before Connect or Detach. */
  predicate MayOffer(s: System) {
    !DetachCalled(s.l) && (s.l.lookups != {} || (s.p.f.gate.awaitingLookup && !ConnectCalled(s.l)))
  }

  /** After the cleanup of the driver: detach the collector and tell the base fetch. */
  function Rejected(p: ParseSide): ParseSide {
    p.(f := p.f.(gate := p.f.gate.(awaitingLookup := false)), fetcher := Stopped, baseDone := p.baseDone + [false])
  }

  predicate Enabled(s: System, step: Step) {
    match step
    case StartFetch => s.p.fetcher.NotStarted?
    case RejectFetch => s.p.fetcher.NotStarted?
    case FinishReject => s.p.fetcher.Rejecting?
    case WriteText(_) => s.p.fetcher.Between?
    case ContinueWrite => s.p.fetcher.Connecting? || s.p.fetcher.Releasing? || s.p.fetcher.Queueing?
    case FlushText => s.p.fetcher.Between?
    case EndFetch(_) => s.p.fetcher.Between?
    case ContinueEnd => s.p.fetcher.Detaching? || s.p.fetcher.Ending?
    case RunHtmlTask => s.p.worker.Resting? && s.p.f.tasks != []
    case ParseBatch(_, _) => s.p.worker.Running?
    case FinishInline => s.p.worker.FlushedInline?
    case Nudge => s.p.worker.Nudging?
    case BeginClose => s.p.worker.Closing?
    case EndClose => s.p.worker.Closed?
    case FlushEnds => s.p.driver.flushInFlight
    case ParseEnds => s.p.driver.ending.EndingParse?
    case AlarmFires => s.p.driver.alarmArmed
    case LookupEnds(id) => id in s.l.lookups
    case OfferTask(_) => MayOffer(s)
    case RunLookupTask => s.l.tasks != []
  }

  function Apply(s: System, cfg: Config, step: Step): System
    requires Enabled(s, step)
  {
    var p, l := s.p, s.l;
    match step
    case StartFetch => System(p.(created := true, fetcher := Between), Post(l, HeadersReady, p.f.gate.awaitingLookup))
    case RejectFetch => s.(p := p.(f := p.f.(life := p.f.life.(hasDriver := false)), fetcher := Rejecting))
    case FinishReject => System(Rejected(p), Post(l, Detach, p.f.gate.awaitingLookup))
    case WriteText(str) => s.(p := Write(p, cfg, str))
    case ContinueWrite => System(Continue(p, cfg), Post(l, Connect, p.fetcher.Connecting? && p.f.gate.awaitingLookup))
    case FlushText => s.(p := NoteFlush(p, cfg))
    case EndFetch(success) => s.(p := End(p, cfg, success))
    case ContinueEnd => System(GoOnEnding(p), Post(l, Detach, p.fetcher.Detaching? && p.fetcher.detach))
    case RunHtmlTask => s.(p := if p.f.tasks[0] == RunQueued then TakeUp(p, cfg) else RunOther(p))
    case ParseBatch(asks, heldBack) => s.(p := Parse(p, cfg, p.worker.taken, asks, heldBack))
    case FinishInline => s.(p := InlineDone(p))
    case Nudge => s.(p := NudgeFlush(p, cfg))
    case BeginClose => s.(p := LockedClose(p, p.worker.success))
    case EndClose => System(UnlockedClose(p, p.worker.success), Post(l, Detach, p.worker.detach))
    case FlushEnds => s.(p := FlushEnded(p))
    case ParseEnds => s.(p := ParseEnded(p))
    case AlarmFires => s.(p := AlarmFired(p))
    case LookupEnds(id) => s.(l := Post(l, LookupDone(id), true).(lookups := l.lookups - {id}))
    case OfferTask(id) => s.(l := Post(l, AddPostLookup(id), true).(offered := l.offered + [id]))
    case RunLookupTask => RunLookup(s)
  }

  /** A run: each step is enabled where it is taken. */
  ghost predicate CanRun(s: System, cfg: Config, steps: seq<Step>)
    decreases |steps|
  {
    steps != [] ==> Enabled(s, steps[0]) && CanRun(Apply(s, cfg, steps[0]), cfg, steps[1..])
  }

  ghost function Run(s: System, cfg: Config, steps: seq<Step>): System
    requires CanRun(s, cfg, steps)
    decreases |steps|
  {
    if steps == [] then s else Run(Apply(s, cfg, steps[0]), cfg, steps[1..])
  }
}
