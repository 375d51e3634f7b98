/** What every run of a fetch and its collector satisfies: lifetimes, wakeups, bytes,
    post-lookup tasks, and termination. */
module FetchTheorems {
  import opened ByteStreams
  import opened HtmlDetection
  import opened ProxyFetching
  import opened PropertyCollecting
  import opened FetchSteps
  import opened FetchRuns
  import P = FetchInvariants
  import L = LookupInvariants

  /** What the DCHECKs of a step, and the objects it touches, demand. */
  ghost predicate Safe(s: System, step: Step)
    requires Enabled(s, step)
  {
    match step
    case RunHtmlTask =>
      && s.p.deletes == 0 && s.p.f.life.hasDriver
      && (s.p.f.tasks[0] == RunQueued ==> !s.p.f.gate.waitingForFlush)
      && (s.p.f.tasks[0] == FlushFinished ==> s.p.f.gate.waitingForFlush)
    case FinishInline => s.p.deletes == 0 && s.p.f.gate.waitingForFlush
    case BeginClose => s.p.deletes == 0 && !s.p.f.gate.waitingForFlush
    case EndFetch(_) => s.p.deletes == 0 && (!s.p.f.life.startedParse ==> !s.p.f.gate.waitingForFlush)
    case LookupEnds(_) => s.l.present && s.l.deletes == 0
    case OfferTask(_) => s.l.present && s.l.deletes == 0 && !s.l.c.stage.detached
    case RunLookupTask =>
      && s.l.present && s.l.deletes == 0
      && (s.l.tasks[0].AddPostLookup? || s.l.tasks[0].Detach? ==> !s.l.c.stage.detached)
      && (s.l.tasks[0].Connect? ==>
            && !s.l.c.stage.connected && !s.l.c.stage.detached
            && s.p.deletes == 0 && s.p.f.life.hasDriver && !s.p.f.life.finishing)
      && (CompletesNext(s.l) ==>
            s.p.deletes == 0 && s.p.f.life.hasDriver && !s.p.f.life.finishing && s.p.f.gate.awaitingLookup)
    case StartFetch => s.l.deletes == 0
    case RejectFetch => s.l.deletes == 0 && s.p.f.life.hasDriver
    case FinishReject => s.l.present && s.p.f.gate.awaitingLookup ==> s.l.deletes == 0
    case ContinueWrite =>
      s.p.deletes == 0 && (s.p.fetcher.Connecting? && s.p.f.gate.awaitingLookup ==> s.l.deletes == 0)
    case ContinueEnd =>
      s.p.deletes == 0 && (s.p.fetcher.Detaching? && s.p.fetcher.detach ==> s.l.deletes == 0)
    case EndClose => s.p.deletes == 0 && !s.p.worker.detach
    case _ => s.p.deletes == 0
  }

  lemma LookupStepSafe(s: System, cfg: Config, step: Step)
    requires Inv(s, cfg) && Enabled(s, step) && (step.LookupEnds? || step.OfferTask? || step.RunLookupTask?)
    ensures Safe(s, step)
  {
    match step
    case LookupEnds(id) => L.LookupEndsKeeps(s.l, id);
    case OfferTask(id) => OfferKeepsLink(s, id);
    case RunLookupTask =>
      L.Popped(s.l);
      assert s.l.tasks[0] in s.l.tasks;
      if CompletesNext(s.l) {
        CompletesAttached(s.p, s.l);
      }
  }

  lemma FetchStepSafe(s: System, cfg: Config, step: Step)
    requires Inv(s, cfg) && Enabled(s, step) && !(step.LookupEnds? || step.OfferTask? || step.RunLookupTask?)
    ensures Safe(s, step)
  {
    match step
    case RunHtmlTask =>
      P.TaskMeansParsing(s.p, cfg);
      P.PopTask(s.p.f.tasks);
      assert P.Count(s.p, s.p.f.tasks[0]) > 0;
    case _ =>
  }

  /** In every run no step finds its object deleted or fails a DCHECK, and
      PropertyCacheComplete reaches only a live fetch that is not finishing. */
  lemma RunsAreSafe(s: System, cfg: Config, step: Step)
    requires Reachable(s, cfg) && Enabled(s, step)
    ensures Safe(s, step)
  {
    ReachableKeeps(s, cfg);
    if step.LookupEnds? || step.OfferTask? || step.RunLookupTask? {
      LookupStepSafe(s, cfg, step);
    } else {
      FetchStepSafe(s, cfg, step);
    }
  }

  /** No wakeup is lost, and one job and one flush at most are in flight. */
  lemma NoLostWakeup(s: System, cfg: Config)
    requires Reachable(s, cfg)
    ensures s.p.f.life.startedParse && !s.p.f.life.finishing && !s.p.worker.Running? && !s.p.worker.Closing? ==>
              (s.p.f.HasPending() ==>
                 RunQueued in s.p.f.tasks || s.p.f.gate.waitingForFlush || s.p.f.gate.awaitingLookup)
    ensures multiset(s.p.f.tasks)[RunQueued] == (if s.p.f.gate.jobCreated then 1 else 0)
    ensures P.FlushTokens(s.p) == (if s.p.f.gate.waitingForFlush then 1 else 0)
    ensures !(s.p.f.gate.jobCreated && s.p.f.gate.waitingForFlush)
  {
    ReachableKeeps(s, cfg);
    assert P.Count(s.p, RunQueued) == P.One(s.p.f.gate.jobCreated);
  }

  /** Nothing but these can be on the html worker's sequence. */
  lemma HtmlTasks(tasks: seq<HtmlTask>)
    ensures var m := multiset(tasks);
            tasks == [] || m[RunQueued] > 0 || m[FlushFinished] > 0 || m[IdleAlarm] > 0
            || m[ParseFinished(true)] > 0 || m[ParseFinished(false)] > 0
  {
    if tasks != [] {
      assert multiset(tasks)[tasks[0]] > 0;
      if tasks[0].ParseFinished? {
        assert tasks[0] == ParseFinished(true) || tasks[0] == ParseFinished(false);
      }
    }
  }

  lemma CleanWhenDeleted(p: ParseSide, cfg: Config)
    requires P.Shape(p, cfg) && p.deletes > 0
    ensures p.fetcher.Stopped? && p.worker.Resting? && !p.f.life.hasDriver && p.f.tasks == []
    ensures !p.driver.flushInFlight && p.driver.ending.NotEnding? && !p.driver.alarmArmed
    ensures !p.f.gate.Shut() && !p.f.HasPending()
  {
    HtmlTasks(p.f.tasks);
  }

  /** A fetch and its collector are each deleted at most once; the base fetch is told with
      the deletion or the rejection, exactly once; a deleted fetch owes nothing, and
      nothing is left that would call it. */
  lemma CleanDestruction(s: System, cfg: Config)
    requires Reachable(s, cfg)
    ensures s.p.deletes <= 1 && s.l.completions <= s.l.deletes <= 1
    ensures |s.p.baseDone| == if s.p.created then s.p.deletes else if s.p.fetcher.Stopped? then 1 else 0
    ensures s.p.deletes == 1 ==>
              && s.p.fetcher.Stopped? && s.p.worker.Resting? && !s.p.f.life.hasDriver && s.p.f.tasks == []
              && !s.p.driver.flushInFlight && s.p.driver.ending.NotEnding? && !s.p.driver.alarmArmed
              && !s.p.f.gate.Shut() && !s.p.f.HasPending()
    ensures s.l.deletes == 1 ==> s.l.tasks == [] && s.l.lookups == {} && s.l.c.postLookup == []
  {
    ReachableKeeps(s, cfg);
    if s.p.deletes > 0 {
      CleanWhenDeleted(s.p, cfg);
    }
  }

  /** The base fetch is told on the second Finish of a fetch that parsed, after its driver
      is done, on the first Finish of any other, and when a request is rejected. */
  lemma TellsBaseOnLastFinish(s: System, cfg: Config, step: Step)
    requires Reachable(s, cfg) && Enabled(s, step) && Apply(s, cfg, step).p.baseDone != s.p.baseDone
    ensures s.p.created ==> s.p.f.life.finishing
    ensures if !s.p.created then step.FinishReject?
            else if s.p.f.life.startedParse then step.EndClose? && !s.p.f.life.hasDriver
            else step.ContinueEnd?
  {
    ReachableKeeps(s, cfg);
    OnlyFinishTells(s, cfg, step);
  }

  lemma OnlyFinishTells(s: System, cfg: Config, step: Step)
    requires Enabled(s, step) && Apply(s, cfg, step).p.baseDone != s.p.baseDone
    ensures || (step.EndClose? && !(s.p.f.life.hasDriver && s.p.f.life.startedParse))
            || (step.ContinueEnd? && s.p.fetcher.Ending?)
            || step.FinishReject?
  {
  }

  // ----- Bytes -----

  /** At the call of FinishParseAsync, and from then on, everything written has been
      parsed in order; a fetch that is not parsed has passed on all but what it holds. */
  lemma BytesConserved(s: System, cfg: Config)
    requires Reachable(s, cfg)
    ensures s.p.f.life.startedParse ==> s.p.parsed <= s.p.written && s.p.passed == []
    ensures s.p.f.life.startedParse && (s.p.worker.Closing? || s.p.f.life.finishing) ==> s.p.parsed == s.p.written
    ensures !s.p.f.life.startedParse ==> s.p.parsed == []
    ensures !s.p.f.life.startedParse && !cfg.DropsBody() ==> s.p.written == s.p.passed + s.p.f.sniff.held
    ensures cfg.DropsBody() ==> s.p.passed == []
  {
    ReachableKeeps(s, cfg);
    P.CompleteAtEnd(s.p, cfg);
    BytesInOrder(s.p, cfg);
  }

  lemma BytesInOrder(p: ParseSide, cfg: Config)
    requires P.FetchInv(p, cfg)
    ensures p.f.life.startedParse ==> p.parsed <= p.written && p.passed == []
    ensures !p.f.life.startedParse ==> p.parsed == []
    ensures cfg.DropsBody() ==> p.passed == []
  {
  }

  /** The fetch was not parsed, and its Done has been called. */
  predicate PassedThrough(p: ParseSide) {
    !p.f.life.startedParse && (p.fetcher.Detaching? || p.fetcher.Ending? || (p.fetcher.Stopped? && p.created))
  }

  lemma PassedThroughStays(s: System, cfg: Config, step: Step)
    requires Inv(s, cfg) && PassedThrough(s.p) && Enabled(s, step)
    ensures var t := Apply(s, cfg, step);
            PassedThrough(t.p) && t.p.passed == s.p.passed && t.p.written == s.p.written
  {
    if step.RunLookupTask? && CompletesNext(s.l) {
      CompletesAttached(s.p, s.l);
    }
  }

  lemma {:induction false} PassedThroughRuns(s: System, cfg: Config, steps: seq<Step>)
    requires Inv(s, cfg) && PassedThrough(s.p) && CanRun(s, cfg, steps)
    ensures Run(s, cfg, steps).p.passed == s.p.passed && Run(s, cfg, steps).p.written == s.p.written
    decreases |steps|
  {
    if steps != [] {
      StepKeeps(s, cfg, steps[0]);
      PassedThroughStays(s, cfg, steps[0]);
      PassedThroughRuns(Apply(s, cfg, steps[0]), cfg, steps[1..]);
    }
  }

  /** What a caller of Done can tell: it reports success, or the type is decided or was
      never in question, or nothing is held. */
  predicate PassesAllOn(p: ParseSide, cfg: Config, success: bool) {
    success || p.f.sniff.decided || !cfg.claimsHtml || p.f.sniff.held == []
  }

  lemma EndPassesOn(p: ParseSide, cfg: Config, success: bool)
    requires P.FetchInv(p, cfg) && p.fetcher.Between? && !p.f.life.startedParse && !cfg.DropsBody()
    ensures var q := End(p, cfg, success);
            PassedThrough(q) && q.written == p.written && (q.passed == q.written <==> PassesAllOn(p, cfg, success))
  {
    assert p.passed + [] == p.passed;
  }

  /** A fetch that is not parsed passes on all that was written exactly then: at Done and
      in every run after it. */
  lemma PassesOnExactly(s: System, cfg: Config, success: bool, steps: seq<Step>)
    requires Reachable(s, cfg) && Enabled(s, EndFetch(success)) && !s.p.f.life.startedParse && !cfg.DropsBody()
    requires CanRun(Apply(s, cfg, EndFetch(success)), cfg, steps)
    ensures var t := Run(Apply(s, cfg, EndFetch(success)), cfg, steps);
            t.p.passed == t.p.written <==> PassesAllOn(s.p, cfg, success)
  {
    ReachableKeeps(s, cfg);
    EndPassesOn(s.p, cfg, success);
    StepKeeps(s, cfg, EndFetch(success));
    PassedThroughRuns(Apply(s, cfg, EndFetch(success)), cfg, steps);
  }

  const BLANK: Bytes := [0x20]

  lemma ConsRuns(s: System, cfg: Config, step: Step, steps: seq<Step>)
    requires Enabled(s, step) && CanRun(Apply(s, cfg, step), cfg, steps)
    ensures CanRun(s, cfg, [step] + steps) && Run(s, cfg, [step] + steps) == Run(Apply(s, cfg, step), cfg, steps)
  {
    assert ([step] + steps)[1..] == steps;
  }

  /** From an undecided fetch that holds something, a failure loses what it holds. */
  lemma FailureLosesHeld(s: System, cfg: Config)
    requires s.p.fetcher.Between? && !s.p.f.life.startedParse && !s.p.f.gate.awaitingLookup && s.p.baseDone == []
    ensures var steps := [EndFetch(false)] + ([ContinueEnd] + ([ContinueEnd] + []));
            && CanRun(s, cfg, steps)
            && var p := Run(s, cfg, steps).p;
            p.deletes == s.p.deletes + 1 && p.passed == s.p.passed && p.written == s.p.written && p.baseDone == [false]
  {
    var s1 := Apply(s, cfg, EndFetch(false));
    var s2 := Apply(s1, cfg, ContinueEnd);
    ConsRuns(s2, cfg, ContinueEnd, []);
    ConsRuns(s1, cfg, ContinueEnd, [ContinueEnd] + []);
    ConsRuns(s, cfg, EndFetch(false), [ContinueEnd] + ([ContinueEnd] + []));
  }

  /** A fetch of one blank that fails: the blank is held, and lost. */
  lemma FailedUndecidedLosesHeld(cfg: Config)
    requires cfg.claimsHtml && cfg.proxiesHtml
    ensures var steps := [StartFetch, WriteText(BLANK), EndFetch(false), ContinueEnd, ContinueEnd];
            && CanRun(Initial({}), cfg, steps)
            && var p := Run(Initial({}), cfg, steps).p;
            p.deletes == 1 && p.passed == [] && p.written == BLANK && p.baseDone == [false]
  {
    var s1 := Apply(Initial({}), cfg, StartFetch);
    LeadingBlanksUnique(BLANK, 1);
    var s2 := Apply(s1, cfg, WriteText(BLANK));
    var rest := [EndFetch(false)] + ([ContinueEnd] + ([ContinueEnd] + []));
    FailureLosesHeld(s2, cfg);
    ConsRuns(s1, cfg, WriteText(BLANK), rest);
    ConsRuns(Initial({}), cfg, StartFetch, [WriteText(BLANK)] + rest);
    assert [StartFetch, WriteText(BLANK), EndFetch(false), ContinueEnd, ContinueEnd]
        == [StartFetch] + ([WriteText(BLANK)] + rest);
  }

  // ----- Batches -----

  /** Each batch is a prefix of what is queued; when no origin flush is followed it is
      shorter than twice the limit, and holds the next one off if it reaches the limit. */
  lemma BatchesBounded(s: System, cfg: Config)
    requires Reachable(s, cfg) && s.p.f.tasks != [] && s.p.f.tasks[0] == RunQueued
    ensures TakeUp(s.p, cfg).worker.Running?
    ensures var t, g := TakeUp(s.p, cfg).worker.taken, TakeUp(s.p, cfg).f;
            && t.batch + g.queue == s.p.f.queue
            && (cfg.limit >= 1 && !(s.p.f.owed.networkFlush && cfg.followFlushes) ==>
                  && |Flatten(t.batch)| < 2 * cfg.limit
                  && (|Flatten(t.batch)| >= cfg.limit <==> t.force)
                  && (t.force ==> g.gate.waitingForFlush))
  {
    ReachableKeeps(s, cfg);
    var f := s.p.f.(tasks := s.p.f.tasks[1..]);
    BatchIsPrefix(f, cfg);
    if cfg.limit >= 1 && !(f.owed.networkFlush && cfg.followFlushes) {
      BatchBound(f, cfg);
    }
  }

  lemma ForcedBatchFlushes(p: ParseSide, cfg: Config, asks: bool, heldBack: bool)
    requires P.Shape(p, cfg) && p.worker.Running? && p.worker.taken.force
    ensures var q := Parse(p, cfg, p.worker.taken, asks, heldBack);
            && q.f.gate.waitingForFlush && !q.f.gate.jobCreated && !q.driver.flushAsked && !q.driver.alarmArmed
            && (if heldBack then q.worker.FlushedInline? else q.driver.flushInFlight && q.worker.Resting?)
  {
  }

  /** A batch that reached the limit, or follows an origin flush, flushes the driver, and
      no job is queued until that flush is over. */
  lemma ForcedFlushBegins(s: System, cfg: Config, asks: bool, heldBack: bool)
    requires Reachable(s, cfg) && s.p.worker.Running? && s.p.worker.taken.force
    ensures var q := Apply(s, cfg, ParseBatch(asks, heldBack)).p;
            && q.f.gate.waitingForFlush && RunQueued !in q.f.tasks && !q.driver.flushAsked
            && (if heldBack then q.worker.FlushedInline? else q.driver.flushInFlight && q.worker.Resting?)
  {
    ReachableKeeps(s, cfg);
    ForcedBatchFlushes(s.p, cfg, asks, heldBack);
    P.ParseStepKeeps(s.p, cfg, asks, heldBack);
    var q := Apply(s, cfg, ParseBatch(asks, heldBack)).p;
    assert P.Count(q, RunQueued) == 0;
  }

  /** An origin flush that is followed takes everything queued before it into the batch
      that it flushes. */
  lemma OriginFlushFollowed(s: System, cfg: Config)
    requires Reachable(s, cfg) && s.p.worker.Resting? && s.p.f.tasks != [] && s.p.f.tasks[0] == RunQueued
    requires s.p.f.owed.networkFlush && cfg.followFlushes
    ensures var q := TakeUp(s.p, cfg);
            && q.worker.Running? && q.worker.taken.force && q.f.queue == [] && !q.f.owed.networkFlush
            && q.parsed + Flatten(q.worker.taken.batch) + P.InHand(q.fetcher) == q.written
  {
    ReachableKeeps(s, cfg);
    P.TaskMeansParsing(s.p, cfg);
    P.TakeUpKeepsBytes(s.p, cfg);
    var q := TakeUp(s.p, cfg);
    assert q.parsed + Flatten(q.worker.taken.batch) + [] == q.parsed + Flatten(q.worker.taken.batch);
  }

  /** Every post-lookup task offered is run, cancelled or waiting, exactly once and in the
      order offered; none waits once the lookups are done and the headers are complete,
      and none is run after one is cancelled. */
  lemma PostLookupTasksOnce(s: System, cfg: Config)
    requires Reachable(s, cfg)
    ensures s.l.c.ran + s.l.c.cancelled + s.l.c.postLookup + L.Offers(s.l.tasks) == s.l.offered
    ensures s.l.c.stage.done && s.l.c.stage.headersOk ==> s.l.c.postLookup == []
    ensures s.l.deletes == 1 ==> s.l.c.ran + s.l.c.cancelled == s.l.offered
  {
    ReachableKeeps(s, cfg);
  }

  /** The collector consults the options, which may be the driver's, for a lookup still out
      until Detach is called. Until then the driver lives, and so does the fetch, except
      exactly between the cleanup of a rejected request's driver and its Detach. */
  lemma OptionsOutliveLookups(s: System, cfg: Config, id: nat)
    requires Reachable(s, cfg) && id in s.l.lookups && !DetachCalled(s.l)
    ensures s.l.present && s.l.deletes == 0 && !s.l.c.stage.done && s.p.deletes == 0
    ensures s.p.f.life.hasDriver <==> !s.p.fetcher.Rejecting?
  {
    ReachableKeeps(s, cfg);
    L.LookupEndsKeeps(s.l, id);
  }

  /** There the lookup finds the options gone. */
  lemma RejectedRequestLosesOptions(cfg: Config, id: nat)
    ensures var s := Apply(Initial({id}), cfg, RejectFetch);
            Reachable(s, cfg) && id in s.l.lookups && !DetachCalled(s.l) && !s.p.f.life.hasDriver
  {
    var s := Apply(Initial({id}), cfg, RejectFetch);
    ConsRuns(Initial({id}), cfg, RejectFetch, []);
  }

  // ----- What the base fetch is told -----

  /** All that is on its way to the base fetch says `result`. */
  ghost predicate Carries(p: ParseSide, result: bool) {
    && !p.fetcher.Between? && !p.fetcher.NotStarted? && !p.fetcher.Rejecting? && !P.InText(p.fetcher)
    && (p.fetcher.Detaching? || p.fetcher.Ending? ==> p.fetcher.success == result)
    && (p.f.life.startedParse ==> p.f.owed.doneResult == result)
    && (p.worker.Running? && p.worker.taken.doFinish ==> p.worker.taken.result == result)
    && (p.worker.Closing? || p.worker.Closed? ==> p.worker.success == result)
    && (p.driver.ending.EndingParse? ==> p.driver.ending.success == result)
    && ParseFinished(!result) !in p.f.tasks
    && !result !in p.baseDone
  }

  lemma EndCarries(p: ParseSide, cfg: Config, success: bool)
    requires P.Shape(p, cfg) && p.fetcher.Between?
    ensures Carries(End(p, cfg, success), success)
  {
    assert ParseFinished(!success) in multiset(p.f.tasks) <==> P.Count(p, ParseFinished(!success)) > 0;
  }

  lemma {:induction false} CancelKeepsOthers(tasks: seq<HtmlTask>, t: HtmlTask)
    ensures t in WithoutAlarm(tasks) ==> t in tasks
  {
    if tasks != [] {
      CancelKeepsOthers(tasks[1..], t);
    }
  }

  lemma AlarmCarries(p: ParseSide, cfg: Config, result: bool)
    requires Carries(p, result)
    ensures Carries(CancelAlarm(p), result) && CancelAlarm(p).worker == p.worker
    ensures Carries(QueueAlarm(p, cfg), result) && QueueAlarm(p, cfg).worker == p.worker
  {
    CancelKeepsOthers(p.f.tasks, ParseFinished(!result));
  }

  lemma RestingCarries(p: ParseSide, result: bool, heldBack: bool)
    requires Carries(p, result) && p.worker.Running?
    ensures Carries(StartFlush(p, heldBack), result) && Carries(p.(worker := FlushedInline), result)
    ensures Carries(p.(worker := Resting), result)
    ensures p.worker.taken.doFinish ==> Carries(p.(worker := Closing(p.worker.taken.result)), result)
  {
  }

  lemma AfterTextCarries(p: ParseSide, cfg: Config, heldBack: bool, result: bool)
    requires Carries(p, result) && p.worker.Running?
    ensures Carries(AfterText(p, cfg, p.worker.taken, heldBack), result)
  {
    AlarmCarries(p, cfg, result);
    RestingCarries(CancelAlarm(p), result, heldBack);
    RestingCarries(QueueAlarm(p, cfg), result, heldBack);
  }

  lemma TextCarries(p: ParseSide, t: Taken, asks: bool, result: bool)
    requires Carries(p, result)
    ensures Carries(ParseText(p, t, asks), result)
  {
  }

  lemma ParseCarries(p: ParseSide, cfg: Config, asks: bool, heldBack: bool, result: bool)
    requires Carries(p, result) && p.worker.Running?
    ensures Carries(Parse(p, cfg, p.worker.taken, asks, heldBack), result)
  {
    TextCarries(p, p.worker.taken, asks, result);
    AfterTextCarries(ParseText(p, p.worker.taken, asks), cfg, heldBack, result);
  }

  lemma TaskCarries(p: ParseSide, cfg: Config, result: bool)
    requires Carries(p, result) && p.f.life.startedParse && p.worker.Resting? && p.f.tasks != []
    ensures Carries(if p.f.tasks[0] == RunQueued then TakeUp(p, cfg) else RunOther(p), result)
  {
    assert p.f.tasks[0] in p.f.tasks;
  }

  lemma InlineCarries(p: ParseSide, cfg: Config, result: bool)
    requires Carries(p, result)
    ensures p.worker.FlushedInline? ==> Carries(InlineDone(p), result)
    ensures p.worker.Nudging? ==> Carries(NudgeFlush(p, cfg), result)
  {
  }

  lemma CloseCarries(p: ParseSide, result: bool)
    requires Carries(p, result)
    ensures p.worker.Closing? ==> Carries(LockedClose(p, p.worker.success), result)
    ensures p.worker.Closed? ==> Carries(UnlockedClose(p, p.worker.success), result)
    ensures p.fetcher.Detaching? || p.fetcher.Ending? ==> Carries(GoOnEnding(p), result)
  {
  }

  lemma DriverCarries(p: ParseSide, result: bool)
    requires Carries(p, result)
    ensures p.driver.flushInFlight ==> Carries(FlushEnded(p), result)
    ensures p.driver.ending.EndingParse? ==> Carries(ParseEnded(p), result)
    ensures p.driver.alarmArmed ==> Carries(AlarmFired(p), result)
    ensures Carries(p.(f := CompleteLookup(p.f)), result)
  {
  }

  lemma StepCarries(s: System, cfg: Config, step: Step, result: bool)
    requires Inv(s, cfg) && Enabled(s, step) && Carries(s.p, result)
    ensures Carries(Apply(s, cfg, step).p, result)
  {
    if step.RunHtmlTask? {
      P.TaskMeansParsing(s.p, cfg);
      TaskCarries(s.p, cfg, result);
    } else if step.ParseBatch? {
      ParseCarries(s.p, cfg, step.asks, step.heldBack, result);
    } else if step.FinishInline? || step.Nudge? {
      InlineCarries(s.p, cfg, result);
    } else if step.BeginClose? || step.EndClose? || step.ContinueEnd? {
      CloseCarries(s.p, result);
    } else {
      DriverCarries(s.p, result);
    }
  }

  lemma {:induction false} RunCarries(s: System, cfg: Config, steps: seq<Step>, result: bool)
    requires Inv(s, cfg) && CanRun(s, cfg, steps) && Carries(s.p, result)
    ensures Carries(Run(s, cfg, steps).p, result)
    decreases |steps|
  {
    if steps != [] {
      StepKeeps(s, cfg, steps[0]);
      StepCarries(s, cfg, steps[0], result);
      RunCarries(Apply(s, cfg, steps[0]), cfg, steps[1..], result);
    }
  }

  lemma CarriesOne(p: ParseSide, result: bool)
    requires Carries(p, result) && |p.baseDone| <= 1
    ensures p.baseDone == [] || p.baseDone == [result]
  {
    if p.baseDone != [] {
      var told := p.baseDone[0];
      assert told in p.baseDone && (told == result || told == !result);
      assert p.baseDone == [result];
    }
  }

  lemma RunTellsOnce(t: System, cfg: Config, steps: seq<Step>, result: bool)
    requires Inv(t, cfg) && Carries(t.p, result) && CanRun(t, cfg, steps)
    ensures Run(t, cfg, steps).p.baseDone == [] || Run(t, cfg, steps).p.baseDone == [result]
  {
    RunCarries(t, cfg, steps, result);
    RunKeeps(t, cfg, steps);
    CarriesOne(Run(t, cfg, steps).p, result);
  }

  /** The base fetch is told nothing but what the origin's Done said. */
  lemma TellsWhatDoneSaid(s: System, t: System, cfg: Config, success: bool, steps: seq<Step>)
    requires Reachable(s, cfg) && Enabled(s, EndFetch(success)) && t == Apply(s, cfg, EndFetch(success))
    requires CanRun(t, cfg, steps)
    ensures Run(t, cfg, steps).p.baseDone == [] || Run(t, cfg, steps).p.baseDone == [success]
  {
    ReachableKeeps(s, cfg);
    StepKeeps(s, cfg, EndFetch(success));
    EndCarries(s.p, cfg, success);
    RunTellsOnce(t, cfg, steps, success);
  }
}
