/** Once the origin is done every run is finite, and where it can go no further both
    objects are gone and nothing was lost. */
module FetchTermination {
  import opened ByteStreams
  import opened ProxyFetching
  import opened PropertyCollecting
  import opened FetchSteps
  import opened FetchRuns
  import P = FetchInvariants
  import L = LookupInvariants

  // Each thing on its way is worth more than all it can lead to, but for a flush: there
  // the text or the origin's flush that it takes from the queue makes up the difference.
  function TaskWeight(t: HtmlTask): nat {
    match t
    case RunQueued => 10
    case FlushFinished => 11
    case IdleAlarm => 1
    case ParseFinished(_) => 4
  }

  function TasksWeight(tasks: seq<HtmlTask>): nat {
    if tasks == [] then 0 else TaskWeight(tasks[0]) + TasksWeight(tasks[1..])
  }

  function WorkerWeight(w: Worker, hasDriver: bool): nat {
    match w
    case Resting => 0
    case Running(t) => if t.doFlush then 14 else 8
    case FlushedInline => 11
    case Nudging => 16
    case Closing(_) => if hasDriver then 7 else 3
    case Closed(_, _) => if hasDriver then 6 else 2
  }

  function DriverWeight(d: Driver): nat {
    (if d.flushInFlight then 12 else 0) + (if d.ending.EndingParse? then 5 else 0) + if d.alarmArmed then 2 else 0
  }

  function QueueWeight(f: Fetch): nat {
    5 * |f.queue| + if f.owed.networkFlush then 5 else 0
  }

  function FetcherWeight(fetcher: Fetcher): nat {
    match fetcher
    case Rejecting => 3
    case Detaching(_, _) => 5
    case Ending(_) => 1
    case _ => 0
  }

  function FetchWeight(p: ParseSide): nat {
    TasksWeight(p.f.tasks) + QueueWeight(p.f) + WorkerWeight(p.worker, p.f.life.hasDriver) + DriverWeight(p.driver)
    + FetcherWeight(p.fetcher) + if p.f.gate.awaitingLookup then 11 else 0
  }

  function LookupWeight(l: LookupSide): nat {
    2 * |l.tasks| + 3 * |l.lookups|
  }

  function Measure(s: System): nat {
    FetchWeight(s.p) + LookupWeight(s.l)
  }

  /** The fetcher has sent all it will. */
  predicate OriginDone(p: ParseSide) {
    p.fetcher.Rejecting? || p.fetcher.Detaching? || p.fetcher.Ending? || p.fetcher.Stopped?
  }

  lemma {:induction false} PushWeight(tasks: seq<HtmlTask>, t: HtmlTask)
    ensures TasksWeight(tasks + [t]) == TasksWeight(tasks) + TaskWeight(t)
  {
    var all := tasks + [t];
    if tasks == [] {
      assert all == [t] && all[1..] == [];
    } else {
      PushWeight(tasks[1..], t);
      assert all[0] == tasks[0] && all[1..] == tasks[1..] + [t];
    }
  }

  lemma {:induction false} CancelWeight(tasks: seq<HtmlTask>)
    ensures TasksWeight(WithoutAlarm(tasks)) <= TasksWeight(tasks)
  {
    if tasks != [] {
      CancelWeight(tasks[1..]);
      var rest := WithoutAlarm(tasks[1..]);
      if tasks[0] != IdleAlarm {
        assert ([tasks[0]] + rest)[1..] == rest;
      } else {
        assert [] + rest == rest;
      }
    }
  }

  lemma ScheduleWeight(f: Fetch)
    ensures TasksWeight(Schedule(f).tasks) <= TasksWeight(f.tasks) + 10
    ensures Schedule(f).queue == f.queue && Schedule(f).owed == f.owed && Schedule(f).life == f.life
    ensures Schedule(f).gate.awaitingLookup == f.gate.awaitingLookup
  {
    PushWeight(f.tasks, RunQueued);
  }

  /** A batch that is flushed takes at least one chunk, or the origin's flush. */
  lemma BatchWeight(f: Fetch, cfg: Config)
    ensures var Taking(g, t) := TakeBatch(f, cfg);
            && QueueWeight(g) + (if t.doFlush then 5 else 0) <= QueueWeight(f)
            && g.life == f.life && g.tasks == f.tasks && g.gate.awaitingLookup == f.gate.awaitingLookup
  {
  }

  lemma TakeUpShrinks(p: ParseSide, cfg: Config)
    requires p.worker.Resting? && p.f.tasks != [] && p.f.tasks[0] == RunQueued
    ensures FetchWeight(TakeUp(p, cfg)) < FetchWeight(p)
  {
    BatchWeight(p.f.(tasks := p.f.tasks[1..]), cfg);
  }

  lemma OtherTaskShrinks(p: ParseSide)
    requires p.worker.Resting? && p.f.tasks != [] && p.f.tasks[0] != RunQueued
    requires p.f.owed.doneOutstanding || p.f.life.finishing
    ensures FetchWeight(RunOther(p)) < FetchWeight(p)
  {
    var f := p.f.(tasks := p.f.tasks[1..]);
    ScheduleWeight(f.(gate := f.gate.(waitingForFlush := false)));
  }

  lemma AlarmWeight(p: ParseSide, cfg: Config)
    ensures var q := CancelAlarm(p);
            && TasksWeight(q.f.tasks) + DriverWeight(q.driver) <= TasksWeight(p.f.tasks) + DriverWeight(p.driver)
            && q == p.(f := p.f.(tasks := q.f.tasks), driver := p.driver.(alarmArmed := false))
    ensures var q := QueueAlarm(p, cfg);
            && TasksWeight(q.f.tasks) + DriverWeight(q.driver) <= TasksWeight(p.f.tasks) + DriverWeight(p.driver) + 2
            && q == p.(f := p.f.(tasks := q.f.tasks), driver := p.driver.(alarmArmed := q.driver.alarmArmed))
  {
    CancelWeight(p.f.tasks);
  }

  lemma FlushPathShrinks(p: ParseSide, cfg: Config, heldBack: bool)
    requires p.worker.Running? && p.worker.taken.doFlush && !p.driver.flushInFlight
    ensures FetchWeight(StartFlush(CancelAlarm(p), heldBack)) < FetchWeight(p)
    ensures FetchWeight(QueueAlarm(p, cfg).(worker := FlushedInline)) < FetchWeight(p)
  {
    AlarmWeight(p, cfg);
  }

  lemma PlainPathShrinks(p: ParseSide, cfg: Config, result: bool)
    requires p.worker.Running? && !p.worker.taken.doFlush
    ensures FetchWeight(CancelAlarm(p).(worker := Closing(result))) < FetchWeight(p)
    ensures FetchWeight(QueueAlarm(p, cfg).(worker := Resting)) < FetchWeight(p)
  {
    AlarmWeight(p, cfg);
  }

  lemma ParseShrinks(p: ParseSide, cfg: Config, asks: bool, heldBack: bool)
    requires p.worker.Running?
    requires p.worker.taken.doFlush ==> !p.driver.flushInFlight
    ensures FetchWeight(Parse(p, cfg, p.worker.taken, asks, heldBack)) < FetchWeight(p)
  {
    var t := p.worker.taken;
    var q := ParseText(p, t, asks);
    assert FetchWeight(q) == FetchWeight(p);
    if t.doFlush {
      FlushPathShrinks(q, cfg, heldBack);
    } else {
      PlainPathShrinks(q, cfg, t.result);
    }
  }

  lemma NudgeShrinks(p: ParseSide, cfg: Config)
    requires p.worker.Nudging?
    ensures FetchWeight(NudgeFlush(p, cfg)) < FetchWeight(p)
  {
    ScheduleWeight(p.f.(owed := p.f.owed.(networkFlush := true)));
  }

  lemma InlineShrinks(p: ParseSide)
    requires p.worker.FlushedInline?
    ensures FetchWeight(InlineDone(p)) < FetchWeight(p)
  {
    ScheduleWeight(p.f.(gate := p.f.gate.(waitingForFlush := false)));
  }

  lemma CloseShrinks(p: ParseSide)
    ensures p.worker.Closing? ==> FetchWeight(LockedClose(p, p.worker.success)) < FetchWeight(p)
    ensures p.worker.Closed? && p.driver.ending.NotEnding? ==>
              FetchWeight(UnlockedClose(p, p.worker.success)) < FetchWeight(p)
  {
  }

  lemma DriverShrinks(p: ParseSide)
    ensures p.driver.flushInFlight ==> FetchWeight(FlushEnded(p)) < FetchWeight(p)
    ensures p.driver.ending.EndingParse? ==> FetchWeight(ParseEnded(p)) < FetchWeight(p)
    ensures p.driver.alarmArmed ==> FetchWeight(AlarmFired(p)) < FetchWeight(p)
  {
    PushWeight(p.f.tasks, FlushFinished);
    PushWeight(p.f.tasks, IdleAlarm);
    PushWeight(p.f.tasks, ParseFinished(true));
    PushWeight(p.f.tasks, ParseFinished(false));
  }

  lemma CompleteShrinks(p: ParseSide)
    requires p.f.gate.awaitingLookup
    ensures FetchWeight(p.(f := CompleteLookup(p.f))) < FetchWeight(p)
  {
    ScheduleWeight(p.f.(gate := p.f.gate.(awaitingLookup := false)));
  }

  lemma EndShrinks(p: ParseSide, l: LookupSide)
    requires p.fetcher.Detaching? || p.fetcher.Ending?
    requires p.worker.Resting?
    ensures var m := Post(l, Detach, p.fetcher.Detaching? && p.fetcher.detach);
            FetchWeight(GoOnEnding(p)) + LookupWeight(m) < FetchWeight(p) + LookupWeight(l)
  {
  }

  lemma RejectShrinks(p: ParseSide, l: LookupSide)
    requires p.fetcher.Rejecting?
    ensures var m := Post(l, Detach, p.f.gate.awaitingLookup);
            FetchWeight(Rejected(p)) + LookupWeight(m) < FetchWeight(p) + LookupWeight(l)
  {
  }

  lemma LookupTaskShrinks(p: ParseSide, l: LookupSide)
    requires l.tasks != []
    ensures LookupWeight(AfterTask(l, p.f.gate.awaitingLookup)) < LookupWeight(l)
  {
  }

  lemma LookupEndShrinks(l: LookupSide, id: nat)
    requires id in l.lookups
    ensures LookupWeight(Post(l, LookupDone(id), true).(lookups := l.lookups - {id})) < LookupWeight(l)
  {
    assert |l.lookups - {id}| == |l.lookups| - 1;
  }

  // ----- Every step -----

  lemma QueueStepShrinks(s: System, cfg: Config, step: Step)
    requires Inv(s, cfg) && OriginDone(s.p) && Enabled(s, step)
    requires step.RunHtmlTask? || step.ParseBatch? || step.FinishInline? || step.Nudge?
    ensures Measure(Apply(s, cfg, step)) < Measure(s)
  {
    match step
    case RunHtmlTask =>
      P.TaskMeansParsing(s.p, cfg);
      if s.p.f.tasks[0] == RunQueued {
        TakeUpShrinks(s.p, cfg);
      } else {
        OtherTaskShrinks(s.p);
      }
    case ParseBatch(asks, heldBack) => ParseShrinks(s.p, cfg, asks, heldBack);
    case FinishInline => InlineShrinks(s.p);
    case Nudge => NudgeShrinks(s.p, cfg);
  }

  lemma CloseStepShrinks(s: System, cfg: Config, step: Step)
    requires Inv(s, cfg) && OriginDone(s.p) && Enabled(s, step)
    requires step.BeginClose? || step.EndClose? || step.FlushEnds? || step.ParseEnds? || step.AlarmFires?
    ensures Measure(Apply(s, cfg, step)) < Measure(s)
  {
    CloseShrinks(s.p);
    DriverShrinks(s.p);
    if step.EndClose? {
      P.EndCloseKeeps(s.p, cfg);
    }
  }

  lemma LookupStepShrinks(s: System, cfg: Config, step: Step)
    requires Inv(s, cfg) && OriginDone(s.p) && Enabled(s, step)
    requires step.FinishReject? || step.ContinueEnd? || step.LookupEnds? || step.RunLookupTask?
    ensures Measure(Apply(s, cfg, step)) < Measure(s)
  {
    match step
    case FinishReject => RejectShrinks(s.p, s.l);
    case ContinueEnd => EndShrinks(s.p, s.l);
    case LookupEnds(id) => LookupEndShrinks(s.l, id);
    case RunLookupTask =>
      LookupTaskShrinks(s.p, s.l);
      if CompletesNext(s.l) {
        CompletesAttached(s.p, s.l);
        CompleteShrinks(s.p);
      }
  }

  /** Every step but the offer of a post-lookup task, which is the caller's. */
  lemma StepShrinks(s: System, cfg: Config, step: Step)
    requires Inv(s, cfg) && OriginDone(s.p) && Enabled(s, step) && !step.OfferTask?
    ensures Measure(Apply(s, cfg, step)) < Measure(s)
  {
    if step.RunHtmlTask? || step.ParseBatch? || step.FinishInline? || step.Nudge? {
      QueueStepShrinks(s, cfg, step);
    } else if step.FinishReject? || step.ContinueEnd? || step.LookupEnds? || step.RunLookupTask? {
      LookupStepShrinks(s, cfg, step);
    } else {
      CloseStepShrinks(s, cfg, step);
    }
  }

  lemma OfferGrows(s: System, cfg: Config, step: Step)
    requires Enabled(s, step) && step.OfferTask?
    ensures Measure(Apply(s, cfg, step)) == Measure(s) + 2
  {
  }

  function Offered(steps: seq<Step>): nat {
    if steps == [] then 0 else (if steps[0].OfferTask? then 1 else 0) + Offered(steps[1..])
  }

  lemma OriginStaysDone(s: System, cfg: Config, step: Step)
    requires OriginDone(s.p) && Enabled(s, step)
    ensures OriginDone(Apply(s, cfg, step).p)
  {
  }

  /** Once the origin is done no run is longer than the measure, and three steps more for
      each post-lookup task still offered, whatever the limit, the driver's flushes and
      the idle alarm do. */
  lemma {:induction false} RunsEnd(s: System, cfg: Config, steps: seq<Step>)
    requires Inv(s, cfg) && OriginDone(s.p) && CanRun(s, cfg, steps)
    ensures |steps| + Measure(Run(s, cfg, steps)) <= Measure(s) + 3 * Offered(steps)
    decreases |steps|
  {
    if steps != [] {
      StepKeeps(s, cfg, steps[0]);
      if steps[0].OfferTask? {
        OfferGrows(s, cfg, steps[0]);
      } else {
        StepShrinks(s, cfg, steps[0]);
      }
      OriginStaysDone(s, cfg, steps[0]);
      RunsEnd(Apply(s, cfg, steps[0]), cfg, steps[1..]);
    }
  }

  // ----- Where a run can go no further -----

  /** No party has anything to do. */
  ghost predicate Stuck(s: System) {
    forall step: Step :: !step.OfferTask? ==> !Enabled(s, step)
  }

  lemma StuckWorker(s: System)
    requires Stuck(s)
    ensures s.p.f.tasks == [] && s.p.worker.Resting?
  {
    assert !Enabled(s, ParseBatch(false, false)) && !Enabled(s, FinishInline) && !Enabled(s, Nudge);
    assert !Enabled(s, BeginClose) && !Enabled(s, EndClose) && !Enabled(s, RunHtmlTask);
  }

  lemma StuckFetch(s: System)
    requires Stuck(s)
    ensures s.p.f.tasks == [] && s.p.worker.Resting? && s.p.fetcher.Stopped?
    ensures !s.p.driver.flushInFlight && s.p.driver.ending.NotEnding? && !s.p.driver.alarmArmed
  {
    StuckWorker(s);
    assert !Enabled(s, StartFetch) && !Enabled(s, FinishReject) && !Enabled(s, FlushText);
    assert !Enabled(s, ContinueWrite) && !Enabled(s, ContinueEnd);
    assert !Enabled(s, FlushEnds) && !Enabled(s, ParseEnds) && !Enabled(s, AlarmFires);
  }

  lemma StuckCache(s: System)
    requires Stuck(s)
    ensures s.l.tasks == [] && s.l.lookups == {}
  {
    assert !Enabled(s, RunLookupTask);
    assert forall id :: id in s.l.lookups ==> Enabled(s, LookupEnds(id));
  }

  lemma StuckLookup(p: ParseSide, l: LookupSide)
    requires L.LookupInv(l) && Link(p, l) && l.tasks == [] && l.lookups == {} && p.fetcher.Stopped?
    requires p.f.gate.awaitingLookup ==> p.f.life.startedParse
    ensures !p.f.gate.awaitingLookup && l.deletes == (if l.present then 1 else 0)
    ensures l.c.ran + l.c.cancelled == l.offered
  {
    assert l.c.pending == {};
  }

  /** A run that can go no further has deleted both objects, told the base fetch, parsed
      everything written or passed on all but what a failure left held, and run or
      cancelled every post-lookup task; no more can be offered. */
  lemma StuckIsDone(s: System, cfg: Config)
    requires Reachable(s, cfg) && Stuck(s)
    ensures |s.p.baseDone| == 1 && s.p.deletes == (if s.p.created then 1 else 0)
    ensures s.l.deletes == (if s.l.present then 1 else 0)
    ensures s.l.c.ran + s.l.c.cancelled == s.l.offered && !MayOffer(s)
    ensures s.p.f.life.startedParse ==> s.p.parsed == s.p.written
    ensures !s.p.f.life.startedParse && !cfg.DropsBody() ==> s.p.written == s.p.passed + s.p.f.sniff.held
  {
    ReachableKeeps(s, cfg);
    StuckFetch(s);
    StuckCache(s);
    StuckLookup(s.p, s.l);
    P.CompleteAtEnd(s.p, cfg);
    StuckParse(s.p, cfg);
  }

  lemma StuckParse(p: ParseSide, cfg: Config)
    requires P.Shape(p, cfg) && p.f.tasks == [] && p.worker.Resting? && p.fetcher.Stopped? && !p.f.gate.awaitingLookup
    requires !p.driver.flushInFlight && p.driver.ending.NotEnding?
    ensures p.created ==> p.deletes == 1 && p.f.life.finishing
    ensures p.f.life.startedParse ==> p.created
    ensures !p.created ==> p.deletes == 0
    ensures |p.baseDone| == 1
  {
    assert P.Count(p, RunQueued) == 0;
  }

  lemma StuckEnds(s: System, cfg: Config)
    requires Inv(s, cfg) && Stuck(s)
    ensures |s.p.baseDone| == 1 && s.p.deletes == (if s.p.created then 1 else 0)
    ensures s.l.deletes == (if s.l.present then 1 else 0)
  {
    StuckFetch(s);
    StuckCache(s);
    StuckLookup(s.p, s.l);
    StuckParse(s.p, cfg);
  }

  /** Whatever happened so far, when the origin is done a run that is carried on as far
      as it goes ends, and ends well. */
  lemma DrainsAndEnds(s: System, cfg: Config, steps: seq<Step>)
    requires Reachable(s, cfg) && OriginDone(s.p) && CanRun(s, cfg, steps)
    ensures |steps| <= Measure(s) + 3 * Offered(steps)
    ensures var t := Run(s, cfg, steps);
            Stuck(t) ==>
              && |t.p.baseDone| == 1 && t.p.deletes == (if t.p.created then 1 else 0)
              && t.l.deletes == (if t.l.present then 1 else 0)
  {
    ReachableKeeps(s, cfg);
    RunsEnd(s, cfg, steps);
    RunKeeps(s, cfg, steps);
    var t := Run(s, cfg, steps);
    if Stuck(t) {
      StuckEnds(t, cfg);
    }
  }

  /** Finish is reached: from wherever the origin was done some run goes to its end. */
  lemma {:induction false} FinishIsReached(s: System, cfg: Config) returns (steps: seq<Step>)
    requires Inv(s, cfg) && OriginDone(s.p)
    ensures CanRun(s, cfg, steps) && Stuck(Run(s, cfg, steps))
    decreases Measure(s)
  {
    if Stuck(s) {
      return [];
    }
    var step: Step :| !step.OfferTask? && Enabled(s, step);
    StepKeeps(s, cfg, step);
    StepShrinks(s, cfg, step);
    OriginStaysDone(s, cfg, step);
    var rest := FinishIsReached(Apply(s, cfg, step), cfg);
    steps := [step] + rest;
    assert steps[1..] == rest;
  }
}
