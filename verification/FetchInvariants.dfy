/** What every step of the protocol keeps on the fetch's side. */
module FetchInvariants {
  import opened ByteStreams
  import opened HtmlDetection
  import opened ProxyFetching
  import opened FetchSteps

  function One(b: bool): nat {
    if b then 1 else 0
  }

  ghost function Count(p: ParseSide, t: HtmlTask): nat {
    multiset(p.f.tasks)[t]
  }

  /** What stands for a flush not yet reported done. */
  ghost function FlushTokens(p: ParseSide): nat {
    Count(p, FlushFinished) + One(p.driver.flushInFlight)
    + One(p.worker.FlushedInline?) + One(p.worker.Running? && p.worker.taken.doFlush)
  }

  /** What stands for the end of the parse not yet dealt with. */
  ghost function EndTokens(p: ParseSide): nat {
    Count(p, ParseFinished(true)) + Count(p, ParseFinished(false)) + One(p.driver.ending.EndingParse?)
  }

  /** One job is queued exactly when the flag says so, and one flush is owed exactly
      when the fetch waits for one. */
  ghost predicate Tokens(p: ParseSide) {
    && Count(p, RunQueued) == One(p.f.gate.jobCreated)
    && FlushTokens(p) == One(p.f.gate.waitingForFlush)
    && !(p.f.gate.jobCreated && p.f.gate.waitingForFlush)
  }

  ghost predicate Quiet(p: ParseSide) {
    && p.f.tasks == [] && p.f.queue == []
    && !p.f.gate.jobCreated && !p.f.owed.networkFlush && !p.f.owed.doneOutstanding && !p.f.gate.waitingForFlush
    && p.worker.Resting? && !p.driver.flushInFlight && p.driver.ending.NotEnding? && !p.driver.alarmArmed
    && p.parsed == []
    && (p.f.life.hasDriver <==> p.deletes == 0 && (p.created || p.fetcher.NotStarted?))
  }

  ghost predicate StartedRight(p: ParseSide, cfg: Config) {
    && cfg.claimsHtml && cfg.proxiesHtml && cfg.parses
    && p.created && p.f.life.hasSequence && p.f.sniff.IsHtml() && p.f.sniff.held == [] && p.passed == []
  }

  /** Before the fetch exists, and forever if it is rejected. */
  ghost predicate Untouched(p: ParseSide) {
    && !p.created && !p.f.life.startedParse && !p.f.life.finishing && p.deletes == 0
    && p.f.sniff == FRESH && p.written == [] && p.passed == []
  }

  ghost predicate Open(p: ParseSide) {
    p.created && !p.f.life.finishing && !p.f.owed.doneOutstanding && p.deletes == 0
  }

  ghost predicate Ended(p: ParseSide) {
    p.created && !p.f.life.startedParse && p.f.life.finishing && !p.f.gate.awaitingLookup
  }

  /** The base fetch is told with the deletion, or with the rejection. */
  ghost predicate Told(p: ParseSide) {
    |p.baseDone| == p.deletes + One(p.fetcher.Stopped? && !p.created) && p.deletes <= 1
  }

  /** The fetcher thread's place, against the life of the fetch. */
  ghost predicate Places(p: ParseSide) {
    && Told(p)
    && match p.fetcher
       case NotStarted => Untouched(p)
       case Rejecting => Untouched(p)
       case Between => Open(p)
       case Connecting(_, _) => Open(p) && p.f.life.startedParse
       case Releasing(_, _) => Open(p) && p.f.life.startedParse
       case Queueing(_) => Open(p) && p.f.life.startedParse
       case Detaching(_, _) => Ended(p) && p.deletes == 0
       case Ending(_) => Ended(p) && p.deletes == 0
       case Stopped =>
         if !p.created then Untouched(p) && !p.f.gate.awaitingLookup
         else if p.f.life.startedParse then p.f.owed.doneOutstanding || p.f.life.finishing
         else Ended(p) && p.deletes == 1
  }

  ghost predicate NothingLeft(p: ParseSide) {
    && p.f.queue == [] && !p.f.owed.networkFlush && !p.f.gate.jobCreated && !p.f.gate.waitingForFlush
  }

  ghost predicate NoAlarm(p: ParseSide) {
    !p.driver.alarmArmed && Count(p, IdleAlarm) == 0
  }

  /** While the parse runs, before Finish. */
  ghost predicate Parsing(p: ParseSide) {
    && EndTokens(p) == 0 && p.deletes == 0 && p.f.life.hasDriver && !p.worker.Closed?
    && (p.worker.Closing? ==> NothingLeft(p) && p.f.owed.doneOutstanding && NoAlarm(p))
    && (p.worker.Running? ==>
          var t := p.worker.taken;
          && (t.force ==> t.doFlush)
          && (t.doFinish ==> p.f.owed.doneOutstanding)
          && (t.doFinish && !t.doFlush ==> NothingLeft(p)))
  }

  /** From the first Finish of a parsed fetch on, exactly one thing leads to its deletion. */
  ghost predicate Finishing(p: ParseSide) {
    && p.fetcher.Stopped? && !p.f.gate.awaitingLookup && !p.f.owed.doneOutstanding
    && NothingLeft(p) && NoAlarm(p)
    && (p.worker.Resting? || p.worker.Closing? || p.worker.Closed?)
    && EndTokens(p) + One(p.worker.Closing?) + One(p.worker.Closed?) == 1 - p.deletes
    && (EndTokens(p) > 0 ==> p.f.life.hasDriver)
    && (p.worker.Closing? ==> !p.f.life.hasDriver)
    && (p.worker.Closed? ==> !p.worker.detach)
    && (p.deletes == 1 ==> !p.f.life.hasDriver)
  }

  /** ExecuteQueued has taken everything there was, Done included. */
  predicate OnTheWayOut(w: Worker) {
    w.Closing? || (w.Running? && w.taken.doFinish && !w.taken.doFlush)
  }

  /** No wakeup is lost. */
  ghost predicate WillWake(p: ParseSide) {
    p.f.HasPending() ==> p.f.gate.Shut() || OnTheWayOut(p.worker)
  }

  /** Nothing is parsed before the lookups are complete. */
  ghost predicate HeldByLookup(p: ParseSide) {
    && !p.f.life.finishing && !p.f.gate.jobCreated && !p.f.gate.waitingForFlush
    && p.f.tasks == [] && p.worker.Resting? && p.parsed == []
    && !p.driver.flushInFlight && !p.driver.alarmArmed && p.driver.ending.NotEnding?
  }

  /** All but that pending work wakes the worker. */
  ghost predicate Asleep(p: ParseSide, cfg: Config) {
    && Tokens(p)
    && Places(p)
    && (p.f.owed.doneOutstanding ==> p.fetcher.Stopped? && p.f.life.startedParse)
    && (p.f.gate.awaitingLookup ==> HeldByLookup(p))
    && (if p.f.life.startedParse then
          && StartedRight(p, cfg)
          && (if p.f.life.finishing then Finishing(p) else Parsing(p))
        else
          Quiet(p))
  }

  ghost predicate Shape(p: ParseSide, cfg: Config) {
    Asleep(p, cfg) && (p.f.life.startedParse && !p.f.life.finishing ==> WillWake(p))
  }

  // ----- Bytes -----

  function InHand(fetcher: Fetcher): Bytes {
    match fetcher
    case Connecting(held, str) => held + str
    case Releasing(held, str) => held + str
    case Queueing(str) => str
    case _ => []
  }

  function InBatch(worker: Worker): Bytes {
    if worker.Running? then Flatten(worker.taken.batch) else []
  }

  function Accounted(p: ParseSide): Bytes {
    p.parsed + InBatch(p.worker) + Flatten(p.f.queue) + InHand(p.fetcher)
  }

  /** Every byte written is parsed, about to be parsed, queued, held or passed on, in
      the order written. */
  ghost predicate BytesKept(p: ParseSide, cfg: Config) {
    && p.f.sniff.Valid()
    && (if p.f.life.startedParse then
          p.written == Accounted(p)
        else
          && (!cfg.DropsBody() ==> p.written == p.passed + p.f.sniff.held)
          && (cfg.DropsBody() ==> p.passed == p.f.sniff.held == [])
          && (p.f.sniff.decided || !cfg.claimsHtml ==> p.f.sniff.held == [])
          && (!p.f.sniff.decided && cfg.claimsHtml ==> p.passed == [])
          && ((p.fetcher.Detaching? || p.fetcher.Ending?) && p.fetcher.success ==> p.f.sniff.held == [])
          && (true in p.baseDone ==> p.f.sniff.held == []))
  }

  ghost predicate ChunksSized(p: ParseSide, cfg: Config) {
    forall c :: c in p.f.queue ==> 1 <= |c| <= cfg.ChunkSize()
  }

  ghost predicate FetchInv(p: ParseSide, cfg: Config) {
    Shape(p, cfg) && BytesKept(p, cfg) && ChunksSized(p, cfg)
  }

  lemma ScheduleWakes(p: ParseSide, cfg: Config)
    requires Asleep(p, cfg) && p.f.life.startedParse && !p.f.life.finishing && !OnTheWayOut(p.worker)
    ensures Shape(p.(f := Schedule(p.f)), cfg)
  {
    var q := p.(f := Schedule(p.f));
    if q != p {
      assert multiset(q.f.tasks) == multiset(p.f.tasks) + multiset{RunQueued};
    }
  }

  // ----- The fetcher thread -----

  /** The fetcher is inside HandleWrite of a fetch that is parsed. */
  predicate InText(fetcher: Fetcher) {
    fetcher.Connecting? || fetcher.Releasing? || fetcher.Queueing?
  }

  lemma TextKeeps(p: ParseSide, cfg: Config, str: Bytes)
    requires Shape(p, cfg) && p.f.life.startedParse && !p.fetcher.Stopped?
    ensures Shape(p.(f := AddText(p.f, cfg, str)), cfg)
  {
    ScheduleWakes(p.(f := p.f.(queue := p.f.queue + Chunks(str, cfg.ChunkSize()))), cfg);
  }

  lemma PassKeeps(p: ParseSide, cfg: Config, sniff: Sniff, written: Bytes, passed: Bytes)
    requires Shape(p, cfg) && p.fetcher.Between? && !p.f.life.startedParse
    ensures Shape(p.(f := p.f.(sniff := sniff), written := written, passed := passed), cfg)
  {
  }

  lemma StartKeeps(p: ParseSide, cfg: Config, sniff: Sniff, written: Bytes, fetcher: Fetcher)
    requires Shape(p, cfg) && p.fetcher.Between? && !p.f.life.startedParse && fetcher.Connecting?
    requires cfg.claimsHtml && cfg.proxiesHtml && cfg.parses && sniff.IsHtml() && sniff.held == [] && p.passed == []
    ensures var f := p.f.(sniff := sniff, life := p.f.life.(hasSequence := true, startedParse := true));
            Shape(p.(f := f, written := written, fetcher := fetcher), cfg)
  {
  }

  lemma FirstWriteKeeps(p: ParseSide, cfg: Config, str: Bytes)
    requires Shape(p, cfg) && BytesKept(p, cfg) && p.fetcher.Between? && !p.f.life.startedParse
    ensures Shape(Write(p, cfg, str), cfg)
  {
    var Considered(g, outcome) := ConsiderWrite(p.f, cfg, str);
    var written := p.written + str;
    match outcome
    case Starts(held) => StartKeeps(p, cfg, g.sniff, written, Connecting(held, str));
    case Passes(bytes) => PassKeeps(p, cfg, g.sniff, written, p.passed + bytes);
    case _ => PassKeeps(p, cfg, g.sniff, written, p.passed);
  }

  lemma WriteKeeps(p: ParseSide, cfg: Config, str: Bytes)
    requires Shape(p, cfg) && BytesKept(p, cfg) && p.fetcher.Between?
    ensures Shape(Write(p, cfg, str), cfg)
  {
    if p.f.life.startedParse {
      TextKeeps(p.(written := p.written + str), cfg, str);
    } else {
      FirstWriteKeeps(p, cfg, str);
    }
  }

  lemma MoveKeeps(p: ParseSide, cfg: Config, fetcher: Fetcher)
    requires Shape(p, cfg) && p.f.life.startedParse && InText(p.fetcher)
    requires InText(fetcher) || fetcher.Between?
    ensures Shape(p.(fetcher := fetcher), cfg)
  {
  }

  lemma ContinueKeeps(p: ParseSide, cfg: Config)
    requires Shape(p, cfg) && InText(p.fetcher)
    ensures Shape(Continue(p, cfg), cfg)
  {
    match p.fetcher
    case Connecting(held, str) =>
      MoveKeeps(p, cfg, Releasing(held, str));
    case Releasing(held, str) =>
      MoveKeeps(p, cfg, Queueing(str));
      TextKeeps(p.(fetcher := Queueing(str)), cfg, held);
    case Queueing(str) =>
      MoveKeeps(p, cfg, Between);
      TextKeeps(p.(fetcher := Between), cfg, str);
  }

  lemma FlushKeeps(p: ParseSide, cfg: Config)
    requires Shape(p, cfg) && p.f.life.startedParse && !p.f.life.finishing && !OnTheWayOut(p.worker)
    ensures Shape(p.(f := AddFlush(p.f, cfg)), cfg)
  {
    if cfg.flushHtml || cfg.followFlushes {
      ScheduleWakes(p.(f := p.f.(owed := p.f.owed.(networkFlush := true))), cfg);
    }
  }

  lemma EndKeeps(p: ParseSide, cfg: Config, success: bool)
    requires Shape(p, cfg) && p.fetcher.Between?
    ensures Shape(End(p, cfg, success), cfg)
  {
    if p.f.life.startedParse {
      var owed := p.f.owed.(doneOutstanding := true, doneResult := success);
      ScheduleWakes(p.(f := p.f.(owed := owed), fetcher := Stopped), cfg);
    }
  }

  lemma GoOnEndingKeeps(p: ParseSide, cfg: Config)
    requires Shape(p, cfg)
    ensures Shape(GoOnEnding(p), cfg)
  {
  }

  // ----- The html worker's sequence -----

  lemma PopTask(tasks: seq<HtmlTask>)
    requires tasks != []
    ensures multiset(tasks) == multiset{tasks[0]} + multiset(tasks[1..])
  {
    assert tasks == [tasks[0]] + tasks[1..];
  }

  /** A task on the sequence means that the parse has started and no lookup is awaited. */
  lemma TaskMeansParsing(p: ParseSide, cfg: Config)
    requires Shape(p, cfg) && p.f.tasks != []
    ensures p.f.life.startedParse && !p.f.gate.awaitingLookup && p.deletes == 0
  {
    PopTask(p.f.tasks);
    var t := p.f.tasks[0];
    assert Count(p, t) > 0;
    if t.ParseFinished? {
      assert t == ParseFinished(true) || t == ParseFinished(false);
    }
  }

  lemma TakeKeeps(p: ParseSide, cfg: Config)
    requires Shape(p, cfg) && p.worker.Resting? && p.f.tasks != [] && p.f.tasks[0] == RunQueued
    ensures Shape(TakeUp(p, cfg), cfg)
  {
    TaskMeansParsing(p, cfg);
    PopTask(p.f.tasks);
    BatchIsPrefix(p.f.(tasks := p.f.tasks[1..]), cfg);
  }

  lemma EndFlushKeeps(p: ParseSide, cfg: Config, q: ParseSide)
    requires Shape(p, cfg) && p.f.life.startedParse && !p.f.life.finishing && p.f.gate.waitingForFlush
    requires q == p.(f := p.f.(tasks := q.f.tasks), worker := Resting)
    requires p.worker.Resting? || p.worker.FlushedInline?
    requires var gone := if p.worker.Resting? then multiset{FlushFinished} else multiset{};
             multiset(p.f.tasks) == multiset(q.f.tasks) + gone
    ensures Shape(q.(f := EndFlush(q.f)), cfg)
  {
    var r := q.(f := q.f.(gate := q.f.gate.(waitingForFlush := false)));
    assert Asleep(r, cfg);
    if r.f.HasPending() {
      ScheduleWakes(r, cfg);
    }
  }

  lemma FlushFinishedKeeps(p: ParseSide, cfg: Config)
    requires Shape(p, cfg) && p.worker.Resting? && p.f.tasks != [] && p.f.tasks[0] == FlushFinished
    ensures p.f.gate.waitingForFlush
    ensures Shape(RunOther(p), cfg)
  {
    TaskMeansParsing(p, cfg);
    PopTask(p.f.tasks);
    assert Count(p, FlushFinished) > 0;
    EndFlushKeeps(p, cfg, p.(f := p.f.(tasks := p.f.tasks[1..])));
  }

  lemma InlineFlushKeeps(p: ParseSide, cfg: Config)
    requires Shape(p, cfg) && p.worker.FlushedInline?
    ensures p.f.gate.waitingForFlush
    ensures Shape(InlineDone(p), cfg)
  {
    EndFlushKeeps(p, cfg, p.(worker := Resting));
  }

  lemma AlarmKeeps(p: ParseSide, cfg: Config)
    requires Shape(p, cfg) && p.worker.Resting? && p.f.tasks != [] && p.f.tasks[0] == IdleAlarm
    ensures Shape(RunOther(p), cfg)
  {
    TaskMeansParsing(p, cfg);
    PopTask(p.f.tasks);
    assert Count(p, IdleAlarm) > 0;
  }

  lemma ParseFinishedKeeps(p: ParseSide, cfg: Config)
    requires Shape(p, cfg) && p.worker.Resting? && p.f.tasks != [] && p.f.tasks[0].ParseFinished?
    ensures Shape(RunOther(p), cfg)
  {
    TaskMeansParsing(p, cfg);
    PopTask(p.f.tasks);
    assert Count(p, p.f.tasks[0]) > 0;
  }

  lemma {:induction false} WithoutAlarmCounts(tasks: seq<HtmlTask>)
    ensures multiset(WithoutAlarm(tasks)) == multiset(tasks)[IdleAlarm := 0]
  {
    if tasks != [] {
      PopTask(tasks);
      WithoutAlarmCounts(tasks[1..]);
    }
  }

  lemma CancelKeeps(p: ParseSide, cfg: Config)
    requires Shape(p, cfg) && p.f.life.startedParse
    ensures Shape(CancelAlarm(p), cfg) && NoAlarm(CancelAlarm(p))
    ensures CancelAlarm(p) == p.(driver := p.driver.(alarmArmed := false), f := p.f.(tasks := CancelAlarm(p).f.tasks))
  {
    WithoutAlarmCounts(p.f.tasks);
  }

  lemma QueueAlarmKeeps(p: ParseSide, cfg: Config)
    requires Shape(p, cfg) && p.worker.Running? && !OnTheWayOut(p.worker)
    ensures Shape(QueueAlarm(p, cfg), cfg)
    ensures var q := QueueAlarm(p, cfg);
            q == p.(driver := p.driver.(alarmArmed := q.driver.alarmArmed), f := p.f.(tasks := q.f.tasks))
  {
    CancelKeeps(p, cfg);
  }

  lemma FlushBeginsKeeps(p: ParseSide, cfg: Config, heldBack: bool)
    requires Shape(p, cfg) && p.worker.Running? && p.worker.taken.doFlush && NoAlarm(p)
    ensures Shape(StartFlush(p, heldBack), cfg)
  {
  }

  lemma LeavesRunKeeps(p: ParseSide, cfg: Config, worker: Worker)
    requires Shape(p, cfg) && p.worker.Running?
    requires if p.worker.taken.doFlush then worker.FlushedInline?
             else if p.worker.taken.doFinish then worker.Closing? && NoAlarm(p)
             else worker.Resting?
    ensures Shape(p.(worker := worker), cfg)
  {
  }

  lemma FlushPathKeeps(p: ParseSide, cfg: Config, heldBack: bool)
    requires Shape(p, cfg) && p.worker.Running? && p.worker.taken.doFlush
    ensures Shape(StartFlush(CancelAlarm(p), heldBack), cfg)
    ensures Shape(QueueAlarm(p, cfg).(worker := FlushedInline), cfg)
  {
    CancelKeeps(p, cfg);
    FlushBeginsKeeps(CancelAlarm(p), cfg, heldBack);
    QueueAlarmKeeps(p, cfg);
    LeavesRunKeeps(QueueAlarm(p, cfg), cfg, FlushedInline);
  }

  lemma PlainPathKeeps(p: ParseSide, cfg: Config)
    requires Shape(p, cfg) && p.worker.Running? && !p.worker.taken.doFlush
    ensures p.worker.taken.doFinish ==> Shape(CancelAlarm(p).(worker := Closing(p.worker.taken.result)), cfg)
    ensures !p.worker.taken.doFinish ==> Shape(QueueAlarm(p, cfg).(worker := Resting), cfg)
  {
    if p.worker.taken.doFinish {
      CancelKeeps(p, cfg);
      LeavesRunKeeps(CancelAlarm(p), cfg, Closing(p.worker.taken.result));
    } else {
      QueueAlarmKeeps(p, cfg);
      LeavesRunKeeps(QueueAlarm(p, cfg), cfg, Resting);
    }
  }

  lemma ParsedKeeps(p: ParseSide, cfg: Config, parsed: Bytes, asked: bool)
    requires Shape(p, cfg) && p.worker.Running?
    ensures Shape(p.(parsed := parsed, driver := p.driver.(flushAsked := asked)), cfg)
  {
  }

  lemma ParseStepKeeps(p: ParseSide, cfg: Config, asks: bool, heldBack: bool)
    requires Shape(p, cfg) && p.worker.Running?
    ensures Shape(Parse(p, cfg, p.worker.taken, asks, heldBack), cfg)
  {
    var t := p.worker.taken;
    var asked := p.driver.flushAsked || asks || (t.doFlush && t.force);
    var q := p.(parsed := p.parsed + Flatten(t.batch), driver := p.driver.(flushAsked := asked));
    ParsedKeeps(p, cfg, p.parsed + Flatten(t.batch), asked);
    if t.doFlush {
      FlushPathKeeps(q, cfg, heldBack);
    } else {
      PlainPathKeeps(q, cfg);
    }
  }

  lemma NudgeKeeps(p: ParseSide, cfg: Config)
    requires Shape(p, cfg) && p.worker.Nudging?
    ensures Shape(NudgeFlush(p, cfg), cfg)
  {
    FlushKeeps(p.(driver := p.driver.(flushAsked := true), worker := Resting), cfg);
  }

  lemma CloseKeeps(p: ParseSide, cfg: Config)
    requires Shape(p, cfg) && p.worker.Closing?
    ensures !p.f.gate.waitingForFlush && !p.f.gate.awaitingLookup
    ensures Shape(LockedClose(p, p.worker.success), cfg)
  {
  }

  lemma EndCloseKeeps(p: ParseSide, cfg: Config)
    requires Shape(p, cfg) && p.worker.Closed?
    ensures !p.worker.detach
    ensures Shape(UnlockedClose(p, p.worker.success), cfg)
  {
  }

  // ----- The driver, the alarm and the collector -----

  lemma FlushEndsKeeps(p: ParseSide, cfg: Config)
    requires Shape(p, cfg) && p.driver.flushInFlight
    ensures Shape(FlushEnded(p), cfg)
  {
  }

  lemma ParseEndsKeeps(p: ParseSide, cfg: Config)
    requires Shape(p, cfg) && p.driver.ending.EndingParse?
    ensures Shape(ParseEnded(p), cfg)
  {
  }

  lemma AlarmFiresKeeps(p: ParseSide, cfg: Config)
    requires Shape(p, cfg) && p.driver.alarmArmed
    ensures Shape(AlarmFired(p), cfg)
  {
  }

  lemma CompleteLookupKeeps(p: ParseSide, cfg: Config)
    requires Shape(p, cfg) && p.f.life.startedParse && p.f.gate.awaitingLookup
    ensures Shape(p.(f := CompleteLookup(p.f)), cfg)
  {
    ScheduleWakes(p.(f := p.f.(gate := p.f.gate.(awaitingLookup := false))), cfg);
  }

  // ----- Bytes -----

  lemma Assoc(a: Bytes, b: Bytes, c: Bytes)
    ensures (a + b) + c == a + (b + c)
  {
  }

  lemma TextQueued(p: ParseSide, cfg: Config, str: Bytes)
    requires ChunksSized(p, cfg)
    ensures var g := AddText(p.f, cfg, str);
            && Flatten(g.queue) == Flatten(p.f.queue) + str
            && g.sniff == p.f.sniff && g.life.startedParse == p.f.life.startedParse
            && ChunksSized(p.(f := g), cfg)
  {
    var chunks := Chunks(str, cfg.ChunkSize());
    ChunksCarryText(str, cfg.ChunkSize());
    FlattenAppend(p.f.queue, chunks);
    assert forall c :: c in p.f.queue + chunks ==> c in p.f.queue || c in chunks;
  }

  /** Text that moves from the fetcher's hand, or from the origin, into the queue. */
  lemma MovedKeepsBytes(p: ParseSide, cfg: Config, g: Fetch, fetcher: Fetcher, extra: Bytes, text: Bytes)
    requires BytesKept(p, cfg) && ChunksSized(p, cfg) && p.f.life.startedParse
    requires g.sniff == p.f.sniff && g.life.startedParse && ChunksSized(p.(f := g), cfg)
    requires Flatten(g.queue) == Flatten(p.f.queue) + text
    requires InHand(p.fetcher) + extra == text + InHand(fetcher)
    ensures var q := p.(f := g, fetcher := fetcher, written := p.written + extra);
            BytesKept(q, cfg) && ChunksSized(q, cfg)
  {
    var before, queued := p.parsed + InBatch(p.worker), Flatten(p.f.queue);
    Assoc(before + queued, InHand(p.fetcher), extra);
    Assoc(before + queued, text, InHand(fetcher));
    Assoc(before, queued, text);
  }

  lemma WriteKeepsBytes(p: ParseSide, cfg: Config, str: Bytes)
    requires BytesKept(p, cfg) && ChunksSized(p, cfg) && p.fetcher.Between? && p.baseDone == []
    requires if p.f.life.startedParse then p.f.sniff.decided && !cfg.DropsBody() else Quiet(p)
    ensures BytesKept(Write(p, cfg, str), cfg) && ChunksSized(Write(p, cfg, str), cfg)
  {
    if p.f.life.startedParse {
      TextQueued(p, cfg, str);
      MovedKeepsBytes(p, cfg, AddText(p.f, cfg, str), Between, str, str);
      assert Write(p, cfg, str) == p.(f := AddText(p.f, cfg, str), fetcher := Between, written := p.written + str);
    } else {
      SniffKeepsBytes(p, cfg, str);
    }
  }

  lemma SniffKeepsBytes(p: ParseSide, cfg: Config, str: Bytes)
    requires BytesKept(p, cfg) && p.fetcher.Between? && p.baseDone == [] && !p.f.life.startedParse && Quiet(p)
    ensures BytesKept(Write(p, cfg, str), cfg) && ChunksSized(Write(p, cfg, str), cfg)
  {
    var d := p.f.sniff;
    Assoc(p.passed, d.held, str);
    if cfg.claimsHtml && cfg.proxiesHtml && !d.decided {
      var e := Consider(d, str);
      assert e.held == if e.decided then d.held else d.held + str;
    }
  }

  lemma HandKeepsBytes(p: ParseSide, cfg: Config, text: Bytes, fetcher: Fetcher)
    requires BytesKept(p, cfg) && ChunksSized(p, cfg) && p.f.life.startedParse
    requires InHand(p.fetcher) == text + InHand(fetcher)
    ensures var q := p.(f := AddText(p.f, cfg, text), fetcher := fetcher);
            BytesKept(q, cfg) && ChunksSized(q, cfg)
  {
    TextQueued(p, cfg, text);
    MovedKeepsBytes(p, cfg, AddText(p.f, cfg, text), fetcher, [], text);
    assert p.written + [] == p.written;
  }

  lemma ContinueKeepsBytes(p: ParseSide, cfg: Config)
    requires BytesKept(p, cfg) && ChunksSized(p, cfg) && p.f.life.startedParse && InText(p.fetcher)
    ensures BytesKept(Continue(p, cfg), cfg) && ChunksSized(Continue(p, cfg), cfg)
  {
    match p.fetcher
    case Connecting(held, str) =>
    case Releasing(held, str) =>
      if held == [] {
        assert InHand(p.fetcher) == InHand(Queueing(str));
      } else {
        HandKeepsBytes(p, cfg, held, Queueing(str));
      }
    case Queueing(str) =>
      assert str + [] == str;
      HandKeepsBytes(p, cfg, str, Between);
  }

  lemma EndKeepsBytes(p: ParseSide, cfg: Config, success: bool)
    requires BytesKept(p, cfg) && p.fetcher.Between? && p.deletes == |p.baseDone| == 0
    requires p.f.life.startedParse ==> p.f.sniff.decided
    ensures BytesKept(End(p, cfg, success), cfg) && End(p, cfg, success).f.queue == p.f.queue
  {
  }

  lemma SplitBytes(whole: seq<Bytes>, front: seq<Bytes>, back: seq<Bytes>)
    requires front + back == whole
    ensures Flatten(whole) == Flatten(front) + Flatten(back)
    ensures forall c :: c in back ==> c in whole
  {
    FlattenAppend(front, back);
  }

  lemma BatchBytes(f: Fetch, cfg: Config)
    ensures var Taking(g, t) := TakeBatch(f, cfg);
            && Flatten(f.queue) == Flatten(t.batch) + Flatten(g.queue)
            && (forall c :: c in g.queue ==> c in f.queue)
            && g.sniff == f.sniff && g.life.startedParse == f.life.startedParse
  {
    var Taking(g, t) := TakeBatch(f, cfg);
    BatchIsPrefix(f, cfg);
    SplitBytes(f.queue, t.batch, g.queue);
  }

  lemma TakeKeepsBytes(p: ParseSide, cfg: Config, g: Fetch, t: Taken)
    requires BytesKept(p, cfg) && ChunksSized(p, cfg) && p.f.life.startedParse && p.worker.Resting?
    requires g.sniff == p.f.sniff && g.life.startedParse && forall c :: c in g.queue ==> c in p.f.queue
    requires Flatten(p.f.queue) == Flatten(t.batch) + Flatten(g.queue)
    ensures var q := p.(f := g, worker := Running(t));
            BytesKept(q, cfg) && ChunksSized(q, cfg)
  {
    var q := p.(f := g, worker := Running(t));
    Assoc(p.parsed, Flatten(t.batch), Flatten(g.queue));
    assert p.parsed + [] == p.parsed;
  }

  lemma TakeUpKeepsBytes(p: ParseSide, cfg: Config)
    requires BytesKept(p, cfg) && ChunksSized(p, cfg) && p.f.life.startedParse && p.worker.Resting? && p.f.tasks != []
    ensures BytesKept(TakeUp(p, cfg), cfg) && ChunksSized(TakeUp(p, cfg), cfg)
  {
    var f := p.f.(tasks := p.f.tasks[1..]);
    BatchBytes(f, cfg);
    TakeKeepsBytes(p, cfg, TakeBatch(f, cfg).f, TakeBatch(f, cfg).t);
  }

  lemma SameBytes(p: ParseSide, q: ParseSide, cfg: Config)
    requires BytesKept(p, cfg) && ChunksSized(p, cfg)
    requires q.f.sniff == p.f.sniff && q.f.life.startedParse == p.f.life.startedParse && q.f.queue == p.f.queue
    requires q.written == p.written && q.parsed == p.parsed && q.passed == p.passed
    requires InBatch(q.worker) == InBatch(p.worker)
    requires q.fetcher == p.fetcher && q.baseDone == p.baseDone
    ensures BytesKept(q, cfg) && ChunksSized(q, cfg)
  {
  }

  lemma OtherTaskKeepsBytes(p: ParseSide, cfg: Config)
    requires BytesKept(p, cfg) && ChunksSized(p, cfg) && p.worker.Resting?
    requires p.f.tasks != [] && p.f.tasks[0] != RunQueued
    ensures BytesKept(RunOther(p), cfg) && ChunksSized(RunOther(p), cfg)
  {
    SameBytes(p, RunOther(p), cfg);
  }

  lemma ParseKeepsBytes(p: ParseSide, cfg: Config, asks: bool, heldBack: bool)
    requires BytesKept(p, cfg) && p.f.life.startedParse && p.worker.Running?
    ensures var q := Parse(p, cfg, p.worker.taken, asks, heldBack);
            BytesKept(q, cfg) && q.f.queue == p.f.queue
  {
    var q := Parse(p, cfg, p.worker.taken, asks, heldBack);
    assert q.parsed + [] == q.parsed;
    assert Accounted(q) == Accounted(p);
  }

  /** At the call of FinishParseAsync everything written has been parsed; a fetch that
      passes through has passed on everything when it succeeds. */
  lemma CompleteAtEnd(p: ParseSide, cfg: Config)
    requires FetchInv(p, cfg)
    ensures p.f.life.startedParse && (p.worker.Closing? || p.f.life.finishing) ==>
              p.parsed == p.written && p.passed == []
    ensures !p.f.life.startedParse && true in p.baseDone && !cfg.DropsBody() ==> p.passed == p.written && p.parsed == []
  {
    if p.f.life.startedParse && (p.worker.Closing? || p.f.life.finishing) {
      assert p.f.queue == [] && InHand(p.fetcher) == [] && InBatch(p.worker) == [];
    }
  }
}
