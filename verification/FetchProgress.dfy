/** That a fetch does its work: HTML is parsed, post-lookup tasks wait for the lookups, and
    a flush that is asked for is made. */
module FetchProgress {
  import opened ByteStreams
  import opened HtmlDetection
  import opened ProxyFetching
  import opened PropertyCollecting
  import opened FetchSteps
  import opened FetchRuns
  import P = FetchInvariants
  import L = LookupInvariants

  // ----- What is parsed -----

  /** The decision, against what was written: by the first byte that is no blank, or, at the
      end of an all-blank document, or past 64 KiB of blanks, against HTML. */
  ghost predicate DecidedRight(p: ParseSide) {
    var n := LeadingBlanks(p.written);
    if !p.f.sniff.decided then p.f.sniff.held == p.written && n == |p.written| <= MAX_BUFFERED_BYTES
    else if n > MAX_BUFFERED_BYTES then true
    else if n < |p.written| then p.f.sniff.html == (p.written[n] == LESS_THAN)
    else !p.f.sniff.html && (p.fetcher.Detaching? || p.fetcher.Ending? || p.fetcher.Stopped?)
  }

  ghost predicate Judged(p: ParseSide, cfg: Config) {
    && (p.f.life.startedParse <==> cfg.claimsHtml && cfg.proxiesHtml && cfg.parses && p.f.sniff.IsHtml())
    && (cfg.claimsHtml && cfg.proxiesHtml ==> DecidedRight(p))
  }

  /** More text changes neither the leading blanks of what has another byte, nor that there
      are more than 64 KiB of them. */
  lemma BlanksSettled(written: Bytes, str: Bytes)
    ensures LeadingBlanks(written) < |written| ==> LeadingBlanks(written + str) == LeadingBlanks(written)
    ensures LeadingBlanks(written + str) >= LeadingBlanks(written)
  {
    if LeadingBlanks(written) < |written| {
      BlanksOfPrefix(written, str);
    } else {
      BlanksOfConcat(written, str);
    }
  }

  /** The detector after a write. */
  function SniffAfter(p: ParseSide, cfg: Config, str: Bytes): Sniff {
    if cfg.claimsHtml && cfg.proxiesHtml && !p.f.sniff.decided then
      var d := Consider(p.f.sniff, str);
      if d.decided then d.(held := []) else d
    else
      p.f.sniff
  }

  lemma WriteSniffs(p: ParseSide, cfg: Config, str: Bytes)
    ensures var q := Write(p, cfg, str);
            && q.f.sniff == SniffAfter(p, cfg, str) && q.written == p.written + str
            && (p.f.life.startedParse ==> q.f.life.startedParse)
            && (!p.f.life.startedParse ==>
                  (q.f.life.startedParse <==>
                     cfg.claimsHtml && cfg.proxiesHtml && cfg.parses && !p.f.sniff.decided && q.f.sniff.IsHtml()))
  {
  }

  lemma SniffedRight(p: ParseSide, q: ParseSide, cfg: Config, str: Bytes)
    requires p.f.sniff.Valid() && DecidedRight(p) && p.fetcher.Between? && cfg.claimsHtml && cfg.proxiesHtml
    requires q.f.sniff == SniffAfter(p, cfg, str) && q.written == p.written + str
    ensures DecidedRight(q)
  {
    BlanksSettled(p.written, str);
    if !p.f.sniff.decided {
      BlanksOfConcat(p.written, str);
    }
  }

  lemma WriteJudged(p: ParseSide, cfg: Config, str: Bytes)
    requires p.f.sniff.Valid() && p.fetcher.Between? && Judged(p, cfg)
    ensures Judged(Write(p, cfg, str), cfg)
  {
    WriteSniffs(p, cfg, str);
    if cfg.claimsHtml && cfg.proxiesHtml {
      SniffedRight(p, Write(p, cfg, str), cfg, str);
    }
  }

  lemma EndJudged(p: ParseSide, cfg: Config, success: bool)
    requires p.fetcher.Between? && Judged(p, cfg)
    ensures Judged(End(p, cfg, success), cfg)
  {
  }

  predicate AtEnd(fetcher: Fetcher) {
    fetcher.Detaching? || fetcher.Ending? || fetcher.Stopped?
  }

  /** Nothing that the decision rests on is touched. */
  predicate Unjudged(p: ParseSide, q: ParseSide) {
    && q.f.sniff == p.f.sniff && q.written == p.written
    && q.f.life.startedParse == p.f.life.startedParse
    && (AtEnd(p.fetcher) ==> AtEnd(q.fetcher))
  }

  lemma FetcherDoesNotJudge(p: ParseSide, cfg: Config)
    ensures p.fetcher.Connecting? || p.fetcher.Releasing? || p.fetcher.Queueing? ==> Unjudged(p, Continue(p, cfg))
    ensures Unjudged(p, NoteFlush(p, cfg)) && Unjudged(p, GoOnEnding(p))
    ensures Unjudged(p, p.(f := CompleteLookup(p.f)))
  {
  }

  lemma AlarmLeaves(p: ParseSide, cfg: Config)
    ensures var q := CancelAlarm(p);
            q == p.(f := p.f.(tasks := q.f.tasks), driver := q.driver)
    ensures var q := QueueAlarm(p, cfg);
            q == p.(f := p.f.(tasks := q.f.tasks), driver := q.driver)
  {
  }

  lemma AfterTextLeaves(p: ParseSide, cfg: Config, t: Taken, heldBack: bool)
    ensures var q := AfterText(p, cfg, t, heldBack);
            q.f == p.f.(tasks := q.f.tasks) && q.written == p.written && q.fetcher == p.fetcher
  {
    AlarmLeaves(p, cfg);
  }

  /** Parsing touches only the tasks of the fetch. */
  lemma ParseLeaves(p: ParseSide, cfg: Config, t: Taken, asks: bool, heldBack: bool)
    ensures var q := Parse(p, cfg, t, asks, heldBack);
            q.f == p.f.(tasks := q.f.tasks) && q.written == p.written && q.fetcher == p.fetcher
  {
    AfterTextLeaves(ParseText(p, t, asks), cfg, t, heldBack);
  }

  lemma TaskDoesNotJudge(p: ParseSide, cfg: Config)
    requires p.f.tasks != []
    ensures Unjudged(p, if p.f.tasks[0] == RunQueued then TakeUp(p, cfg) else RunOther(p))
  {
  }

  lemma WorkerDoesNotJudge(p: ParseSide, cfg: Config)
    ensures Unjudged(p, InlineDone(p)) && Unjudged(p, NudgeFlush(p, cfg))
    ensures p.worker.Closing? ==> Unjudged(p, LockedClose(p, p.worker.success))
    ensures p.worker.Closed? ==> Unjudged(p, UnlockedClose(p, p.worker.success))
  {
  }

  lemma OthersDoNotJudge(s: System, cfg: Config, step: Step)
    requires Enabled(s, step) && !step.WriteText? && !step.EndFetch?
    ensures Unjudged(s.p, Apply(s, cfg, step).p)
  {
    match step
    case ContinueWrite => FetcherDoesNotJudge(s.p, cfg);
    case FlushText => FetcherDoesNotJudge(s.p, cfg);
    case ContinueEnd => FetcherDoesNotJudge(s.p, cfg);
    case RunLookupTask => FetcherDoesNotJudge(s.p, cfg);
    case RunHtmlTask => TaskDoesNotJudge(s.p, cfg);
    case ParseBatch(asks, heldBack) => ParseLeaves(s.p, cfg, s.p.worker.taken, asks, heldBack);
    case FinishInline => WorkerDoesNotJudge(s.p, cfg);
    case Nudge => WorkerDoesNotJudge(s.p, cfg);
    case BeginClose => WorkerDoesNotJudge(s.p, cfg);
    case EndClose => WorkerDoesNotJudge(s.p, cfg);
    case _ =>
  }

  lemma UnjudgedStays(p: ParseSide, q: ParseSide, cfg: Config)
    requires Judged(p, cfg) && Unjudged(p, q)
    ensures Judged(q, cfg)
  {
  }

  lemma StepJudges(s: System, cfg: Config, step: Step)
    requires s.p.f.sniff.Valid() && Enabled(s, step) && Judged(s.p, cfg)
    ensures Judged(Apply(s, cfg, step).p, cfg)
  {
    if step.WriteText? {
      WriteJudged(s.p, cfg, step.str);
    } else if step.EndFetch? {
      EndJudged(s.p, cfg, step.success);
    } else {
      OthersDoNotJudge(s, cfg, step);
      UnjudgedStays(s.p, Apply(s, cfg, step).p, cfg);
    }
  }

  lemma {:induction false} RunJudges(s: System, cfg: Config, steps: seq<Step>)
    requires Inv(s, cfg) && Judged(s.p, cfg) && CanRun(s, cfg, steps)
    ensures Judged(Run(s, cfg, steps).p, cfg)
    decreases |steps|
  {
    if steps != [] {
      StepJudges(s, cfg, steps[0]);
      StepKeeps(s, cfg, steps[0]);
      RunJudges(Apply(s, cfg, steps[0]), cfg, steps[1..]);
    }
  }

  lemma ReachableJudged(s: System, cfg: Config)
    requires Reachable(s, cfg)
    ensures Judged(s.p, cfg)
  {
    var lookups, steps :| CanRun(Initial(lookups), cfg, steps) && s == Run(Initial(lookups), cfg, steps);
    InitialKeeps(lookups, cfg);
    assert Judged(Initial(lookups).p, cfg);
    RunJudges(Initial(lookups), cfg, steps);
  }

  lemma StartedByFirstByte(p: ParseSide, cfg: Config)
    requires Judged(p, cfg)
    ensures var n := LeadingBlanks(p.written);
            n <= MAX_BUFFERED_BYTES ==>
              (p.f.life.startedParse <==>
                 cfg.claimsHtml && cfg.proxiesHtml && cfg.parses && n < |p.written| && p.written[n] == 0x3c)
  {
  }

  /** The parse has started exactly when the response claims to be HTML, may be proxied and
      rewritten, and is judged to be HTML; and, while at most 64 KiB of blanks lead what was
      written, exactly when the first other byte is '<'. */
  lemma ParsesExactlyHtml(s: System, cfg: Config)
    requires Reachable(s, cfg)
    ensures s.p.f.life.startedParse <==> cfg.claimsHtml && cfg.proxiesHtml && cfg.parses && s.p.f.sniff.IsHtml()
    ensures var n := LeadingBlanks(s.p.written);
            n <= MAX_BUFFERED_BYTES ==>
              (s.p.f.life.startedParse <==>
                 cfg.claimsHtml && cfg.proxiesHtml && cfg.parses && n < |s.p.written| && s.p.written[n] == 0x3c)
  {
    ReachableJudged(s, cfg);
    StartedByFirstByte(s.p, cfg);
  }

  // ----- When post-lookup tasks run -----

  predicate Complete(c: Collector) {
    c.stage.done && c.stage.headersOk
  }

  lemma TaskRunsWhenComplete(l: LookupSide, pointedTo: bool)
    requires l.tasks != []
    ensures var e := AfterTask(l, pointedTo).c;
            (e.ran != l.c.ran ==> Complete(e)) && (Complete(l.c) ==> Complete(e))
  {
    assert l.c.ran + [] == l.c.ran;
  }

  /** No step runs a task unless the lookups are done and the headers complete. */
  lemma RunsOnlyWhenComplete(s: System, cfg: Config, step: Step)
    requires Enabled(s, step)
    ensures var c, e := s.l.c, Apply(s, cfg, step).l.c;
            && (e.ran != c.ran ==> Complete(e)) && (Complete(c) ==> Complete(e))
  {
    if step.RunLookupTask? {
      TaskRunsWhenComplete(s.l, s.p.f.gate.awaitingLookup);
    }
  }

  lemma {:induction false} RunsWhenComplete(s: System, cfg: Config, steps: seq<Step>)
    requires CanRun(s, cfg, steps) && (s.l.c.ran != [] ==> Complete(s.l.c))
    ensures var c := Run(s, cfg, steps).l.c;
            c.ran != [] ==> Complete(c)
    decreases |steps|
  {
    if steps != [] {
      RunsOnlyWhenComplete(s, cfg, steps[0]);
      RunsWhenComplete(Apply(s, cfg, steps[0]), cfg, steps[1..]);
    }
  }

  lemma DoneMeansNoneOut(l: LookupSide)
    requires L.LookupInv(l) && l.c.stage.done
    ensures l.lookups == {} && l.c.pending == {}
  {
  }

  /** So a post-lookup task that has run did so with no lookup out. */
  lemma PostLookupTasksWait(s: System, cfg: Config)
    requires Reachable(s, cfg) && s.l.c.ran != []
    ensures s.l.lookups == {} && s.l.c.pending == {} && s.l.c.stage.done && s.l.c.stage.headersOk
  {
    var lookups, steps :| CanRun(Initial(lookups), cfg, steps) && s == Run(Initial(lookups), cfg, steps);
    ReachableKeeps(s, cfg);
    RunsWhenComplete(Initial(lookups), cfg, steps);
    DoneMeansNoneOut(s.l);
  }

  // ----- Flushes -----

  /** A flush from the origin, during the parse, is owed, and a job, a flush or a lookup
      that will see to it is there. */
  lemma FlushIsOwed(s: System, cfg: Config)
    requires Enabled(s, FlushText) && s.p.f.life.startedParse && (cfg.flushHtml || cfg.followFlushes)
    ensures var f := Apply(s, cfg, FlushText).p.f;
            f.owed.networkFlush && f.gate.Shut()
  {
  }

  lemma TakingFlushes(p: ParseSide, cfg: Config)
    requires p.worker.Resting? && p.f.tasks != [] && p.f.tasks[0] == RunQueued && p.f.owed.networkFlush
    ensures var q := TakeUp(p, cfg);
            q.worker.Running? && q.worker.taken.doFlush && q.f.gate.waitingForFlush
  {
  }

  lemma WriteKeepsOwed(p: ParseSide, cfg: Config, str: Bytes)
    ensures Write(p, cfg, str).f.owed.networkFlush == p.f.owed.networkFlush
  {
  }

  lemma FetcherKeepsOwed(p: ParseSide, cfg: Config)
    requires p.f.owed.networkFlush
    ensures Continue(p, cfg).f.owed.networkFlush && NoteFlush(p, cfg).f.owed.networkFlush
  {
  }

  lemma EndKeepsOwed(p: ParseSide, cfg: Config, success: bool)
    ensures End(p, cfg, success).f.owed.networkFlush == p.f.owed.networkFlush
  {
  }

  lemma OtherTaskKeepsOwed(p: ParseSide)
    requires p.f.owed.networkFlush && p.f.tasks != [] && p.f.tasks[0] != RunQueued
    ensures RunOther(p).f.owed.networkFlush
  {
  }

  lemma FetcherStepKeepsOwed(s: System, cfg: Config, step: Step)
    requires Enabled(s, step) && s.p.f.owed.networkFlush && !step.RunHtmlTask? && !step.ParseBatch?
    ensures Apply(s, cfg, step).p.f.owed.networkFlush
  {
    match step
    case WriteText(str) => WriteKeepsOwed(s.p, cfg, str);
    case EndFetch(success) => EndKeepsOwed(s.p, cfg, success);
    case ContinueWrite => FetcherKeepsOwed(s.p, cfg);
    case FlushText => FetcherKeepsOwed(s.p, cfg);
    case _ =>
  }

  /** A flush that is owed stays owed until a batch is taken, which is then flushed. */
  lemma OwedUntilTaken(s: System, cfg: Config, step: Step)
    requires Enabled(s, step) && s.p.f.owed.networkFlush && !Apply(s, cfg, step).p.f.owed.networkFlush
    ensures var p := Apply(s, cfg, step).p;
            step.RunHtmlTask? && p.worker.Running? && p.worker.taken.doFlush && p.f.gate.waitingForFlush
  {
    match step
    case RunHtmlTask =>
      if s.p.f.tasks[0] == RunQueued {
        TakingFlushes(s.p, cfg);
      } else {
        OtherTaskKeepsOwed(s.p);
      }
    case ParseBatch(asks, heldBack) => ParseLeaves(s.p, cfg, s.p.worker.taken, asks, heldBack);
    case _ => FetcherStepKeepsOwed(s, cfg, step);
  }

  lemma BatchIsFlushed(p: ParseSide, cfg: Config, asks: bool, heldBack: bool)
    requires p.worker.Running? && p.worker.taken.doFlush
    ensures var q := Parse(p, cfg, p.worker.taken, asks, heldBack);
            if p.worker.taken.force || asks || p.driver.flushAsked then
              && !q.driver.flushAsked
              && if heldBack then q.worker.FlushedInline? else q.driver.flushInFlight && q.worker.Resting?
            else
              q.worker.FlushedInline?
  {
  }

  /** The driver is flushed after a batch that is to be flushed exactly when the batch was
      forced or somebody has asked; otherwise the wait for the flush ends at once. */
  lemma FlushReachesDriver(s: System, cfg: Config, asks: bool, heldBack: bool)
    requires Reachable(s, cfg) && s.p.worker.Running? && s.p.worker.taken.doFlush
    ensures var p, q := s.p, Apply(s, cfg, ParseBatch(asks, heldBack)).p;
            && q.f.gate.waitingForFlush
            && if p.worker.taken.force || asks || p.driver.flushAsked then
                 if heldBack then q.worker.FlushedInline? else q.driver.flushInFlight && q.worker.Resting?
               else
                 q.worker.FlushedInline? && !q.driver.flushInFlight
  {
    ReachableKeeps(s, cfg);
    BatchIsFlushed(s.p, cfg, asks, heldBack);
    P.ParseStepKeeps(s.p, cfg, asks, heldBack);
    FlushTokenIs(Apply(s, cfg, ParseBatch(asks, heldBack)).p);
  }

  lemma FlushTokenIs(q: ParseSide)
    requires P.Tokens(q) && (q.worker.FlushedInline? || q.driver.flushInFlight)
    ensures q.f.gate.waitingForFlush && (q.worker.FlushedInline? ==> !q.driver.flushInFlight)
  {
  }

  /** Text that is parsed without a flush arms the idle alarm if one is wanted. */
  lemma IdleTextArmsAlarm(s: System, cfg: Config, asks: bool, heldBack: bool)
    requires s.p.worker.Running? && !s.p.worker.taken.doFlush && !s.p.worker.taken.doFinish
    requires cfg.flushHtml && cfg.idleFlush
    ensures Apply(s, cfg, ParseBatch(asks, heldBack)).p.driver.alarmArmed
  {
  }

  /** And the alarm, when it runs on an idle fetch, has the next batch flush the driver. */
  lemma AlarmAsksForFlush(s: System, cfg: Config)
    requires Enabled(s, RunHtmlTask) && s.p.f.tasks[0] == IdleAlarm && cfg.flushHtml
    requires !s.p.f.gate.waitingForFlush && !s.p.f.owed.doneOutstanding && !s.p.f.life.finishing
    ensures var s1 := Apply(s, cfg, RunHtmlTask);
            && Enabled(s1, Nudge)
            && var p := Apply(s1, cfg, Nudge).p;
            p.f.owed.networkFlush && p.driver.flushAsked && p.f.gate.Shut()
  {
  }
}
