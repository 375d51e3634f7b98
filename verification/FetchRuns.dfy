/** The two objects together: what links them, and what every run keeps. */
module FetchRuns {
  import opened ByteStreams
  import opened ProxyFetching
  import opened PropertyCollecting
  import opened FetchSteps
  import P = FetchInvariants
  import L = LookupInvariants

  /** While the fetch points to the collector. */
  ghost predicate Attached(created: bool, started: bool, fetcher: Fetcher, l: LookupSide) {
    && L.Living(l) && !DetachCalled(l)
    && (created ==> l.c.stage.headersOk || HeadersReady in l.tasks)
    && (started ==> fetcher.Connecting? || ConnectCalled(l))
  }

  ghost predicate Linked(created: bool, started: bool, awaiting: bool, fetcher: Fetcher, l: LookupSide) {
    && (awaiting ==> Attached(created, started, fetcher, l))
    && (fetcher.NotStarted? ==> awaiting == l.present && !l.c.stage.headersOk && L.NoneAbove(l.tasks, 1))
    && (L.Living(l) && ConnectCalled(l) ==> started && awaiting && !fetcher.Connecting?)
    && (L.Living(l) && !awaiting ==> DetachCalled(l) || (fetcher.Detaching? && fetcher.detach))
    && (fetcher.Detaching? && fetcher.detach ==> L.Living(l) && !DetachCalled(l))
  }

  ghost predicate Link(p: ParseSide, l: LookupSide) {
    Linked(p.created, p.f.life.startedParse, p.f.gate.awaitingLookup, p.fetcher, l)
  }

  ghost predicate Inv(s: System, cfg: Config) {
    P.FetchInv(s.p, cfg) && L.LookupInv(s.l) && Link(s.p, s.l)
  }

  lemma InitialFetch(lookups: set<nat>, cfg: Config)
    ensures P.FetchInv(Initial(lookups).p, cfg)
  {
    assert P.Shape(Initial(lookups).p, cfg);
  }

  lemma InitialLookups(lookups: set<nat>)
    ensures L.LookupInv(Initial(lookups).l) && Link(Initial(lookups).p, Initial(lookups).l)
  {
    assert L.Orderly(Initial(lookups).l);
  }

  lemma InitialKeeps(lookups: set<nat>, cfg: Config)
    ensures Inv(Initial(lookups), cfg)
  {
    InitialFetch(lookups, cfg);
    InitialLookups(lookups);
  }

  // ----- The link -----

  /** Nothing has been posted that must come before `task`, which may be posted now. */
  lemma PostWhenOpen(l: LookupSide, task: LookupTask)
    requires L.LookupInv(l) && L.Living(l) && !ConnectCalled(l) && !DetachCalled(l)
    requires task.Connect? || task.Detach?
    requires task.Connect? ==> l.c.stage.headersOk || HeadersReady in l.tasks
    ensures L.LookupInv(Post(l, task, true)) && L.Living(Post(l, task, true))
    ensures task == Connect ==> ConnectCalled(Post(l, task, true)) && !DetachCalled(Post(l, task, true))
    ensures task == Detach ==> !ConnectCalled(Post(l, task, true)) && DetachCalled(Post(l, task, true))
  {
    assert L.NoneAbove(l.tasks, 2);
    L.PostKeeps(l, task);
    L.PushedDistinct(l.tasks, task);
  }

  // ----- What each step keeps of the fetch -----

  lemma StartKeepsFetch(p: ParseSide, cfg: Config)
    requires P.FetchInv(p, cfg) && p.fetcher.NotStarted?
    ensures P.FetchInv(p.(created := true, fetcher := Between), cfg)
  {
  }

  lemma RejectKeepsFetch(p: ParseSide, cfg: Config)
    requires P.FetchInv(p, cfg)
    ensures p.fetcher.NotStarted? ==>
              P.FetchInv(p.(f := p.f.(life := p.f.life.(hasDriver := false)), fetcher := Rejecting), cfg)
    ensures p.fetcher.Rejecting? ==> P.FetchInv(Rejected(p), cfg)
  {
  }

  lemma WriteKeepsFetch(p: ParseSide, cfg: Config, str: Bytes)
    requires P.FetchInv(p, cfg) && p.fetcher.Between?
    ensures P.FetchInv(Write(p, cfg, str), cfg)
  {
    P.WriteKeeps(p, cfg, str);
    P.WriteKeepsBytes(p, cfg, str);
  }

  lemma ContinueKeepsFetch(p: ParseSide, cfg: Config)
    requires P.FetchInv(p, cfg) && P.InText(p.fetcher)
    ensures P.FetchInv(Continue(p, cfg), cfg)
  {
    P.ContinueKeeps(p, cfg);
    P.ContinueKeepsBytes(p, cfg);
  }

  lemma FlushKeepsFetch(p: ParseSide, cfg: Config)
    requires P.FetchInv(p, cfg) && p.fetcher.Between?
    ensures P.FetchInv(NoteFlush(p, cfg), cfg)
  {
    if p.f.life.startedParse {
      P.FlushKeeps(p, cfg);
      P.SameBytes(p, NoteFlush(p, cfg), cfg);
    }
  }

  lemma EndKeepsFetch(p: ParseSide, cfg: Config, success: bool)
    requires P.FetchInv(p, cfg) && p.fetcher.Between?
    ensures P.FetchInv(End(p, cfg, success), cfg)
  {
    P.EndKeeps(p, cfg, success);
    P.EndKeepsBytes(p, cfg, success);
  }

  lemma GoOnEndingKeepsBytes(p: ParseSide, cfg: Config)
    requires P.BytesKept(p, cfg) && (p.fetcher.Detaching? || p.fetcher.Ending?)
    ensures P.BytesKept(GoOnEnding(p), cfg) && GoOnEnding(p).f.queue == p.f.queue
  {
  }

  lemma GoOnEndingKeepsFetch(p: ParseSide, cfg: Config)
    requires P.FetchInv(p, cfg) && (p.fetcher.Detaching? || p.fetcher.Ending?)
    ensures P.FetchInv(GoOnEnding(p), cfg)
  {
    P.GoOnEndingKeeps(p, cfg);
    GoOnEndingKeepsBytes(p, cfg);
  }

  lemma TaskKeepsFetch(p: ParseSide, cfg: Config)
    requires P.FetchInv(p, cfg) && p.worker.Resting? && p.f.tasks != []
    ensures P.FetchInv(if p.f.tasks[0] == RunQueued then TakeUp(p, cfg) else RunOther(p), cfg)
  {
    P.TaskMeansParsing(p, cfg);
    match p.f.tasks[0]
    case RunQueued =>
      P.TakeKeeps(p, cfg);
      P.TakeUpKeepsBytes(p, cfg);
    case FlushFinished =>
      P.FlushFinishedKeeps(p, cfg);
      P.OtherTaskKeepsBytes(p, cfg);
    case IdleAlarm =>
      P.AlarmKeeps(p, cfg);
      P.OtherTaskKeepsBytes(p, cfg);
    case ParseFinished(_) =>
      P.ParseFinishedKeeps(p, cfg);
      P.OtherTaskKeepsBytes(p, cfg);
  }

  /** The step leaves what the link speaks of. */
  predicate SameLink(p: ParseSide, q: ParseSide) {
    && q.created == p.created && q.f.life.startedParse == p.f.life.startedParse
    && q.f.gate.awaitingLookup == p.f.gate.awaitingLookup && q.fetcher == p.fetcher
  }

  lemma TaskKeepsLink(p: ParseSide, cfg: Config)
    requires p.f.tasks != []
    ensures SameLink(p, if p.f.tasks[0] == RunQueued then TakeUp(p, cfg) else RunOther(p))
  {
  }

  lemma ParseKeepsFetch(p: ParseSide, cfg: Config, asks: bool, heldBack: bool)
    requires P.FetchInv(p, cfg) && p.worker.Running?
    ensures P.FetchInv(Parse(p, cfg, p.worker.taken, asks, heldBack), cfg)
  {
    P.ParseStepKeeps(p, cfg, asks, heldBack);
    P.ParseKeepsBytes(p, cfg, asks, heldBack);
  }

  lemma ParseKeepsLink(p: ParseSide, cfg: Config, t: Taken, asks: bool, heldBack: bool)
    ensures SameLink(p, Parse(p, cfg, t, asks, heldBack))
  {
  }

  lemma InlineKeepsFetch(p: ParseSide, cfg: Config)
    requires P.FetchInv(p, cfg) && p.worker.FlushedInline?
    ensures P.FetchInv(InlineDone(p), cfg) && SameLink(p, InlineDone(p))
  {
    P.InlineFlushKeeps(p, cfg);
    P.SameBytes(p, InlineDone(p), cfg);
  }

  lemma NudgeKeepsFetch(p: ParseSide, cfg: Config)
    requires P.FetchInv(p, cfg) && p.worker.Nudging?
    ensures P.FetchInv(NudgeFlush(p, cfg), cfg) && SameLink(p, NudgeFlush(p, cfg))
  {
    P.NudgeKeeps(p, cfg);
    P.SameBytes(p, NudgeFlush(p, cfg), cfg);
  }

  lemma CloseKeepsFetch(p: ParseSide, cfg: Config)
    requires P.FetchInv(p, cfg) && p.worker.Closing?
    ensures P.FetchInv(LockedClose(p, p.worker.success), cfg) && SameLink(p, LockedClose(p, p.worker.success))
  {
    P.CloseKeeps(p, cfg);
    P.SameBytes(p, LockedClose(p, p.worker.success), cfg);
  }

  lemma EndCloseKeepsFetch(p: ParseSide, cfg: Config)
    requires P.FetchInv(p, cfg) && p.worker.Closed?
    ensures P.FetchInv(UnlockedClose(p, p.worker.success), cfg) && SameLink(p, UnlockedClose(p, p.worker.success))
  {
    P.EndCloseKeeps(p, cfg);
    var q := UnlockedClose(p, p.worker.success);
    P.SameBytes(p, q.(baseDone := p.baseDone), cfg);
  }

  lemma DriverKeepsFetch(p: ParseSide, cfg: Config)
    requires P.FetchInv(p, cfg)
    ensures p.driver.flushInFlight ==> P.FetchInv(FlushEnded(p), cfg)
    ensures p.driver.ending.EndingParse? ==> P.FetchInv(ParseEnded(p), cfg)
    ensures p.driver.alarmArmed ==> P.FetchInv(AlarmFired(p), cfg)
  {
    if p.driver.flushInFlight {
      P.FlushEndsKeeps(p, cfg);
      P.SameBytes(p, FlushEnded(p), cfg);
    }
    if p.driver.ending.EndingParse? {
      P.ParseEndsKeeps(p, cfg);
      P.SameBytes(p, ParseEnded(p), cfg);
    }
    if p.driver.alarmArmed {
      P.AlarmFiresKeeps(p, cfg);
      P.SameBytes(p, AlarmFired(p), cfg);
    }
  }

  lemma CompleteKeepsFetch(p: ParseSide, cfg: Config)
    requires P.FetchInv(p, cfg) && p.f.life.startedParse && p.f.gate.awaitingLookup
    ensures P.FetchInv(p.(f := CompleteLookup(p.f)), cfg)
  {
    P.CompleteLookupKeeps(p, cfg);
    P.SameBytes(p, p.(f := CompleteLookup(p.f)), cfg);
  }

  // ----- What each step keeps of the collector and of the link -----

  lemma StartKeepsLink(p: ParseSide, l: LookupSide)
    requires L.LookupInv(l) && Link(p, l) && p.fetcher.NotStarted? && !p.created && !p.f.life.startedParse
    ensures var m := Post(l, HeadersReady, p.f.gate.awaitingLookup);
            L.LookupInv(m) && Linked(true, false, p.f.gate.awaitingLookup, Between, m)
  {
    if p.f.gate.awaitingLookup {
      L.PostKeeps(l, HeadersReady);
      L.PushedDistinct(l.tasks, HeadersReady);
    }
  }

  lemma RejectKeepsLink(p: ParseSide, l: LookupSide)
    requires L.LookupInv(l) && Link(p, l) && p.fetcher.Rejecting? && !p.created && !p.f.life.startedParse
    ensures var m := Post(l, Detach, p.f.gate.awaitingLookup);
            L.LookupInv(m) && Linked(false, false, false, Stopped, m)
  {
    if p.f.gate.awaitingLookup {
      PostWhenOpen(l, Detach);
    }
  }

  lemma OfferKeepsLink(s: System, id: nat)
    requires L.LookupInv(s.l) && Link(s.p, s.l) && MayOffer(s)
    ensures L.Living(s.l)
    ensures var m := Post(s.l, AddPostLookup(id), true).(offered := s.l.offered + [id]);
            L.LookupInv(m) && Link(s.p, m)
  {
    if out :| out in s.l.lookups {
      L.LookupEndsKeeps(s.l, out);
    }
    L.OfferKeeps(s.l, id);
    L.PushedDistinct(s.l.tasks, AddPostLookup(id));
  }

  lemma WriteKeepsLink(p: ParseSide, l: LookupSide, cfg: Config, str: Bytes)
    requires Link(p, l) && p.fetcher.Between? && (p.f.life.startedParse ==> p.f.sniff.decided)
    ensures Link(Write(p, cfg, str), l)
  {
    var q := Write(p, cfg, str);
    assert q.created == p.created && q.f.gate.awaitingLookup == p.f.gate.awaitingLookup;
    assert (q.f.life.startedParse == p.f.life.startedParse && q.fetcher == p.fetcher)
        || (q.f.life.startedParse && q.fetcher.Connecting?);
  }

  lemma ContinueKeepsLink(p: ParseSide, l: LookupSide, cfg: Config)
    requires L.LookupInv(l) && Link(p, l) && P.InText(p.fetcher) && p.created && p.f.life.startedParse
    ensures var m := Post(l, Connect, p.fetcher.Connecting? && p.f.gate.awaitingLookup);
            L.LookupInv(m) && Link(Continue(p, cfg), m)
  {
    var q := Continue(p, cfg);
    assert q.created == p.created && q.f.gate.awaitingLookup == p.f.gate.awaitingLookup && q.f.life.startedParse;
    if p.fetcher.Connecting? && p.f.gate.awaitingLookup {
      PostWhenOpen(l, Connect);
      L.PushedDistinct(l.tasks, Connect);
    }
  }

  lemma EndKeepsLink(p: ParseSide, l: LookupSide, cfg: Config, success: bool)
    requires Link(p, l) && p.fetcher.Between?
    ensures Link(End(p, cfg, success), l)
  {
  }

  lemma GoOnEndingKeepsLink(p: ParseSide, l: LookupSide)
    requires L.LookupInv(l) && Link(p, l) && (p.fetcher.Detaching? || p.fetcher.Ending?)
    requires !p.f.gate.awaitingLookup
    ensures var m := Post(l, Detach, p.fetcher.Detaching? && p.fetcher.detach);
            L.LookupInv(m) && Link(GoOnEnding(p), m)
  {
    if p.fetcher.Detaching? && p.fetcher.detach {
      PostWhenOpen(l, Detach);
    }
  }

  lemma LookupEndsKeepsLink(p: ParseSide, l: LookupSide, id: nat)
    requires L.LookupInv(l) && Link(p, l) && id in l.lookups
    ensures var m := Post(l, LookupDone(id), true).(lookups := l.lookups - {id});
            L.LookupInv(m) && Link(p, m)
  {
    L.LookupEndsKeeps(l, id);
    L.PushedDistinct(l.tasks, LookupDone(id));
  }

  /** Only a connected collector completes the fetch, and it finds the fetch alive,
      parsing, and pointing to it. */
  lemma CompletesAttached(p: ParseSide, l: LookupSide)
    requires L.LookupInv(l) && Link(p, l) && l.tasks != [] && CompletesNext(l)
    ensures p.f.life.startedParse && p.f.gate.awaitingLookup
    ensures l.tasks[0].LookupDone? || l.tasks[0].Connect?
  {
    L.Popped(l);
    assert l.tasks[0] in l.tasks;
  }

  lemma TaskKeepsLookup(p: ParseSide, l: LookupSide)
    requires L.LookupInv(l) && Link(p, l) && l.tasks != []
    ensures L.LookupInv(AfterTask(l, p.f.gate.awaitingLookup))
  {
    var pointedTo := p.f.gate.awaitingLookup;
    if CompletesNext(l) {
      CompletesAttached(p, l);
    }
    L.LedgerKeeps(l, pointedTo);
    match l.tasks[0]
    case LookupDone(_) => L.DoneKeeps(l, pointedTo);
    case AddPostLookup(_) => L.AddKeeps(l, pointedTo);
    case HeadersReady => L.HeadersKeep(l, pointedTo);
    case Connect => L.ConnectKeeps(l, pointedTo);
    case Detach => L.DetachKeeps(l, pointedTo);
  }

  /** What a task that does not complete the fetch leaves of what has been called. */
  lemma TaskKeepsCalled(l: LookupSide, m: LookupSide)
    requires L.LookupInv(l) && l.tasks != [] && !CompletesNext(l) && m == AfterTask(l, false)
    ensures DetachCalled(m) == DetachCalled(l) && (ConnectCalled(m) ==> ConnectCalled(l))
    ensures !l.tasks[0].Detach? ==> ConnectCalled(m) == ConnectCalled(l)
    ensures (m.c.stage.headersOk || HeadersReady in m.tasks) == (l.c.stage.headersOk || HeadersReady in l.tasks)
    ensures L.Living(l) && (m.deletes > 0 ==> DetachCalled(l))
  {
    L.Popped(l);
    assert l.tasks[0] in l.tasks;
  }

  lemma CompletingKeepsLink(p: ParseSide, l: LookupSide)
    requires L.LookupInv(l) && Link(p, l) && l.tasks != [] && CompletesNext(l)
    requires p.f.life.startedParse ==> p.fetcher.Between? || P.InText(p.fetcher) || p.fetcher.Stopped?
    ensures Link(p.(f := CompleteLookup(p.f)), AfterTask(l, p.f.gate.awaitingLookup))
  {
    CompletesAttached(p, l);
    L.Popped(l);
  }

  lemma StayingKeepsLink(p: ParseSide, l: LookupSide)
    requires L.LookupInv(l) && Link(p, l) && l.tasks != [] && !CompletesNext(l)
    ensures Link(p, AfterTask(l, p.f.gate.awaitingLookup))
  {
    TaskKeepsLookup(p, l);
    var m := AfterTask(l, false);
    assert AfterTask(l, true) == m;
    TaskKeepsCalled(l, m);
    assert l.tasks[0] in l.tasks;
    assert p.fetcher.NotStarted? ==> L.NoneAbove(m.tasks, 1) && !m.c.stage.headersOk;
  }

  // ----- Every run -----

  lemma StartStepKeeps(s: System, cfg: Config, step: Step)
    requires Inv(s, cfg) && Enabled(s, step) && (step.StartFetch? || step.RejectFetch? || step.FinishReject?)
    ensures Inv(Apply(s, cfg, step), cfg)
  {
    match step
    case StartFetch =>
      StartKeepsFetch(s.p, cfg);
      StartKeepsLink(s.p, s.l);
    case RejectFetch =>
      RejectKeepsFetch(s.p, cfg);
    case FinishReject =>
      RejectKeepsFetch(s.p, cfg);
      RejectKeepsLink(s.p, s.l);
  }

  lemma TextStepKeeps(s: System, cfg: Config, step: Step)
    requires Inv(s, cfg) && Enabled(s, step) && (step.WriteText? || step.ContinueWrite? || step.FlushText?)
    ensures Inv(Apply(s, cfg, step), cfg)
  {
    match step
    case WriteText(str) =>
      WriteKeepsFetch(s.p, cfg, str);
      WriteKeepsLink(s.p, s.l, cfg, str);
    case ContinueWrite =>
      ContinueKeepsFetch(s.p, cfg);
      ContinueKeepsLink(s.p, s.l, cfg);
    case FlushText =>
      FlushKeepsFetch(s.p, cfg);
  }

  lemma EndStepKeeps(s: System, cfg: Config, step: Step)
    requires Inv(s, cfg) && Enabled(s, step) && (step.EndFetch? || step.ContinueEnd?)
    ensures Inv(Apply(s, cfg, step), cfg)
  {
    match step
    case EndFetch(success) =>
      EndKeepsFetch(s.p, cfg, success);
      EndKeepsLink(s.p, s.l, cfg, success);
    case ContinueEnd =>
      GoOnEndingKeepsFetch(s.p, cfg);
      GoOnEndingKeepsLink(s.p, s.l);
  }

  lemma QueueStepKeeps(s: System, cfg: Config, step: Step)
    requires Inv(s, cfg) && Enabled(s, step)
    requires step.RunHtmlTask? || step.ParseBatch? || step.FinishInline? || step.Nudge?
    ensures Inv(Apply(s, cfg, step), cfg)
  {
    match step
    case RunHtmlTask =>
      TaskKeepsFetch(s.p, cfg);
      TaskKeepsLink(s.p, cfg);
    case ParseBatch(asks, heldBack) =>
      ParseKeepsFetch(s.p, cfg, asks, heldBack);
      ParseKeepsLink(s.p, cfg, s.p.worker.taken, asks, heldBack);
    case FinishInline => InlineKeepsFetch(s.p, cfg);
    case Nudge => NudgeKeepsFetch(s.p, cfg);
  }

  lemma CloseStepKeeps(s: System, cfg: Config, step: Step)
    requires Inv(s, cfg) && Enabled(s, step)
    requires step.BeginClose? || step.EndClose? || step.FlushEnds? || step.ParseEnds? || step.AlarmFires?
    ensures Inv(Apply(s, cfg, step), cfg)
  {
    DriverKeepsFetch(s.p, cfg);
    if step.BeginClose? {
      CloseKeepsFetch(s.p, cfg);
    } else if step.EndClose? {
      EndCloseKeepsFetch(s.p, cfg);
      P.EndCloseKeeps(s.p, cfg);
    }
  }

  lemma LookupStepKeeps(s: System, cfg: Config, step: Step)
    requires Inv(s, cfg) && Enabled(s, step)
    requires step.LookupEnds? || step.OfferTask? || step.RunLookupTask?
    ensures Inv(Apply(s, cfg, step), cfg)
  {
    match step
    case LookupEnds(id) => LookupEndsKeepsLink(s.p, s.l, id);
    case OfferTask(id) => OfferKeepsLink(s, id);
    case RunLookupTask =>
      TaskKeepsLookup(s.p, s.l);
      if CompletesNext(s.l) {
        CompletesAttached(s.p, s.l);
        CompletingKeepsLink(s.p, s.l);
        CompleteKeepsFetch(s.p, cfg);
      } else {
        StayingKeepsLink(s.p, s.l);
      }
  }

  lemma StepKeeps(s: System, cfg: Config, step: Step)
    requires Inv(s, cfg) && Enabled(s, step)
    ensures Inv(Apply(s, cfg, step), cfg)
  {
    if step.StartFetch? || step.RejectFetch? || step.FinishReject? {
      StartStepKeeps(s, cfg, step);
    } else if step.WriteText? || step.ContinueWrite? || step.FlushText? {
      TextStepKeeps(s, cfg, step);
    } else if step.EndFetch? || step.ContinueEnd? {
      EndStepKeeps(s, cfg, step);
    } else if step.RunHtmlTask? || step.ParseBatch? || step.FinishInline? || step.Nudge? {
      QueueStepKeeps(s, cfg, step);
    } else if step.LookupEnds? || step.OfferTask? || step.RunLookupTask? {
      LookupStepKeeps(s, cfg, step);
    } else {
      CloseStepKeeps(s, cfg, step);
    }
  }

  lemma {:induction false} RunKeeps(s: System, cfg: Config, steps: seq<Step>)
    requires Inv(s, cfg) && CanRun(s, cfg, steps)
    ensures Inv(Run(s, cfg, steps), cfg)
    decreases |steps|
  {
    if steps != [] {
      StepKeeps(s, cfg, steps[0]);
      RunKeeps(Apply(s, cfg, steps[0]), cfg, steps[1..]);
    }
  }

  /** Some run of some request leads to `s`. */
  ghost predicate Reachable(s: System, cfg: Config) {
    exists lookups, steps :: CanRun(Initial(lookups), cfg, steps) && s == Run(Initial(lookups), cfg, steps)
  }

  lemma ReachableKeeps(s: System, cfg: Config)
    requires Reachable(s, cfg)
    ensures Inv(s, cfg)
  {
    var lookups, steps :| CanRun(Initial(lookups), cfg, steps) && s == Run(Initial(lookups), cfg, steps);
    InitialKeeps(lookups, cfg);
    RunKeeps(Initial(lookups), cfg, steps);
  }
}
