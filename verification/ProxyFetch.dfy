/** The fields of a ProxyFetch, what each of its mutex-protected sections does to
    them, and the class whose methods are those sections. */
module ProxyFetching {
  import opened ByteStreams
  import opened HtmlDetection

  // What the html worker's sequence can hold for one fetch.
  datatype HtmlTask = RunQueued | FlushFinished | IdleAlarm | ParseFinished(success: bool)

  /** The options and response properties that the fetch branches on. `parses` says
      that rewriting is on for the URL and the driver accepts it. */
  datatype Config = Config(
    claimsHtml: bool,
    proxiesHtml: bool,
    parses: bool,
    limit: nat,
    flushHtml: bool,
    followFlushes: bool,
    idleFlush: bool)
  {
    predicate DropsBody() {
      claimsHtml && !proxiesHtml
    }

    function ChunkSize(): (n: nat)
      ensures n >= 1 && n >= limit
    {
      Max(1, limit)
    }
  }

  /** How far the fetch has come. */
  datatype Life = Life(startedParse: bool, hasSequence: bool, hasDriver: bool, finishing: bool)

  /** What keeps a job from being queued: one is, a flush runs, or a lookup is out. */
  datatype Gate = Gate(jobCreated: bool, waitingForFlush: bool, awaitingLookup: bool) {
    predicate Shut() {
      jobCreated || waitingForFlush || awaitingLookup
    }
  }

  /** What the origin has sent besides text. */
  datatype Owed = Owed(networkFlush: bool, doneOutstanding: bool, doneResult: bool)

  datatype Fetch = Fetch(
    sniff: Sniff,
    life: Life,
    gate: Gate,
    owed: Owed,
    queue: seq<Bytes>,
    tasks: seq<HtmlTask>)
  {
    predicate HasPending() {
      queue != [] || owed.networkFlush || owed.doneOutstanding
    }
  }

  function NewFetch(hasCollector: bool): Fetch {
    Fetch(FRESH, Life(false, false, true, false), Gate(false, false, hasCollector), Owed(false, false, false), [], [])
  }

  /** What one run of ExecuteQueued took out of the fetch under the mutex. */
  datatype Taken = Taken(batch: seq<Bytes>, doFlush: bool, doFinish: bool, result: bool, force: bool)

  function Schedule(f: Fetch): Fetch {
    if f.gate.Shut() then f
    else f.(gate := f.gate.(jobCreated := true), tasks := f.tasks + [RunQueued])
  }

  function CompleteLookup(f: Fetch): Fetch {
    var g := f.(gate := f.gate.(awaitingLookup := false));
    if f.life.hasSequence then Schedule(g) else g
  }

  function Chunks(str: Bytes, size: nat): (r: seq<Bytes>)
    requires size >= 1
    decreases |str|
  {
    if str == [] then []
    else
      var n := Min(size, |str|);
      [str[..n]] + Chunks(str[n..], size)
  }

  function AddText(f: Fetch, cfg: Config, str: Bytes): Fetch {
    Schedule(f.(queue := f.queue + Chunks(str, cfg.ChunkSize())))
  }

  function AddFlush(f: Fetch, cfg: Config): Fetch {
    if cfg.flushHtml || cfg.followFlushes then Schedule(f.(owed := f.owed.(networkFlush := true))) else f
  }

  function AddDone(f: Fetch, success: bool): Fetch {
    Schedule(f.(owed := f.owed.(doneOutstanding := true, doneResult := success)))
  }

  function EndFlush(f: Fetch): Fetch {
    var g := f.(gate := f.gate.(waitingForFlush := false));
    if g.HasPending() then Schedule(g) else g
  }

  /** How many leading chunks reach the limit; more than there are if none do. */
  function ForcedCount(queue: seq<Bytes>, limit: nat): (n: nat)
    ensures 1 <= n <= |queue| + 1
  {
    if queue == [] then 1
    else if |queue[0]| >= limit then 1
    else 1 + ForcedCount(queue[1..], limit - |queue[0]|)
  }

  datatype Taking = Taking(f: Fetch, t: Taken)

  function TakeBatch(f: Fetch, cfg: Config): Taking {
    var follow := f.owed.networkFlush && cfg.followFlushes;
    var n := ForcedCount(f.queue, cfg.limit);
    var force := follow || n <= |f.queue|;
    var count := if follow || !force then |f.queue| else n;
    var doFlush := f.owed.networkFlush || force;
    var g := f.(
      queue := f.queue[count..],
      owed := f.owed.(networkFlush := false),
      gate := f.gate.(jobCreated := false, waitingForFlush := f.gate.waitingForFlush || doFlush));
    Taking(g, Taken(f.queue[..count], doFlush, f.owed.doneOutstanding, f.owed.doneResult, force))
  }

  /** The locked section of Finish; the caller remembers whether a lookup was attached. */
  function BeginFinish(f: Fetch): Fetch {
    f.(owed := f.owed.(doneOutstanding := false), life := f.life.(finishing := true),
        gate := f.gate.(awaitingLookup := false))
  }

  /** What a write leads to before any text is queued. */
  datatype WriteOutcome = Dropped | Held | Starts(held: Bytes) | Parses | Passes(bytes: Bytes)

  datatype Considered = Considered(f: Fetch, outcome: WriteOutcome)

  function ConsiderWrite(f: Fetch, cfg: Config, str: Bytes): Considered {
    if cfg.DropsBody() then
      Considered(f, Dropped)
    else if cfg.claimsHtml && !f.sniff.decided then
      var d := Consider(f.sniff, str);
      if !d.decided then
        Considered(f.(sniff := d), Held)
      else if d.html && cfg.parses then
        Considered(f.(sniff := d.(held := []), life := f.life.(hasSequence := true, startedParse := true)),
                   Starts(d.held))
      else
        Considered(f.(sniff := d.(held := [])), Passes(d.held + str))
    else if f.life.startedParse then
      Considered(f, Parses)
    else
      Considered(f, Passes(str))
  }

  /** An all-blank document that ends well is passed through. */
  datatype Released = Released(f: Fetch, bytes: Bytes)

  function ReleaseUndecided(f: Fetch, cfg: Config, success: bool): Released {
    if success && cfg.claimsHtml && !f.sniff.decided then Released(f.(sniff := Sniff([], true, false)), f.sniff.held)
    else Released(f, [])
  }

  class ProxyFetch {
    const cfg: Config
    const detector: HtmlDetector
    var startedParse: bool
    var hasSequence: bool
    var awaitingLookup: bool
    var textQueue: seq<Bytes>
    var queueRunJobCreated: bool
    var networkFlushOutstanding: bool
    var doneOutstanding: bool
    var doneResult: bool
    var waitingForFlushToFinish: bool
    var finishing: bool
    var hasDriver: bool
    var sequence: seq<HtmlTask>

    ghost function View(): Fetch
      reads this, detector
    {
      Fetch(detector.View(),
            Life(startedParse, hasSequence, hasDriver, finishing),
            Gate(queueRunJobCreated, waitingForFlushToFinish, awaitingLookup),
            Owed(networkFlushOutstanding, doneOutstanding, doneResult),
            textQueue, sequence)
    }

    constructor (cfg: Config, hasCollector: bool)
      ensures View() == NewFetch(hasCollector) && this.cfg == cfg && fresh(detector)
    {
      this.cfg := cfg;
      detector := new HtmlDetector();
      startedParse, hasSequence, awaitingLookup := false, false, hasCollector;
      textQueue, queueRunJobCreated, networkFlushOutstanding := [], false, false;
      doneOutstanding, doneResult, waitingForFlushToFinish := false, false, false;
      finishing, hasDriver, sequence := false, true, [];
    }

    method ScheduleQueueExecutionIfNeeded()
      modifies this
      ensures View() == Schedule(old(View()))
    {
      // Already queued: no need to queue again.
      if queueRunJobCreated {
        return;
      }
      // FlushDone or PropertyCacheComplete will do it.
      if waitingForFlushToFinish || awaitingLookup {
        return;
      }
      queueRunJobCreated := true;
      sequence := sequence + [RunQueued];
    }

    method PropertyCacheComplete() returns (toDelete: bool)
      modifies this
      ensures View() == CompleteLookup(old(View()))
      ensures toDelete == old(awaitingLookup)
    {
      toDelete := awaitingLookup;
      awaitingLookup := false;
      if hasSequence {
        ScheduleQueueExecutionIfNeeded();
      }
    }

    /** HandleWrite up to the point where it queues text. */
    method SniffWrite(str: Bytes) returns (outcome: WriteOutcome)
      requires View().sniff.Valid()
      modifies this, detector
      ensures Considered(View(), outcome) == ConsiderWrite(old(View()), cfg, str)
    {
      if cfg.claimsHtml && !cfg.proxiesHtml {
        return Dropped;
      }
      if cfg.claimsHtml && !detector.alreadyDecided {
        var decided := detector.ConsiderInput(str);
        if !decided {
          return Held;
        }
        var buffered := detector.ReleaseBuffered();
        if detector.probableHtml && cfg.parses {
          hasSequence := true;
          startedParse := true;
          return Starts(buffered);
        }
        return Passes(buffered + str);
      }
      return if startedParse then Parses else Passes(str);
    }

    method ReleaseAtEnd(success: bool) returns (released: Bytes)
      modifies this, detector
      ensures Released(View(), released) == ReleaseUndecided(old(View()), cfg, success)
    {
      released := [];
      if success && cfg.claimsHtml && !detector.alreadyDecided {
        detector.ForceDecision(false);
        released := detector.ReleaseBuffered();
      }
    }

    /** Splits a write into chunks and queues them. */
    method QueueText(str: Bytes)
      modifies this
      ensures View() == AddText(old(View()), cfg, str)
    {
      var chunkSize: nat := Max(1, cfg.limit);
      var chunks: seq<Bytes> := [];
      var pos := 0;
      while pos < |str|
        invariant 0 <= pos <= |str|
        invariant chunks + Chunks(str[pos..], chunkSize) == Chunks(str, chunkSize)
        invariant View() == old(View())
      {
        var n := Min(chunkSize, |str| - pos);
        ChunksStep(str, chunkSize, pos, chunks);
        chunks := chunks + [str[pos..pos + n]];
        pos := pos + n;
      }
      assert chunks == Chunks(str, chunkSize);
      textQueue := textQueue + chunks;
      ScheduleQueueExecutionIfNeeded();
    }

    method QueueFlush()
      modifies this
      ensures View() == AddFlush(old(View()), cfg)
    {
      if cfg.flushHtml || cfg.followFlushes {
        networkFlushOutstanding := true;
        ScheduleQueueExecutionIfNeeded();
      }
    }

    method QueueDone(success: bool)
      modifies this
      ensures View() == AddDone(old(View()), success)
    {
      doneOutstanding := true;
      doneResult := success;
      ScheduleQueueExecutionIfNeeded();
    }

    method FlushDone()
      requires waitingForFlushToFinish
      modifies this
      ensures View() == EndFlush(old(View()))
    {
      waitingForFlushToFinish := false;
      if textQueue != [] || networkFlushOutstanding || doneOutstanding {
        ScheduleQueueExecutionIfNeeded();
      }
    }

    /** Scans the queue for enough text to force a flush. */
    method FindForcedFlush() returns (force: bool, count: nat)
      ensures force == (ForcedCount(textQueue, cfg.limit) <= |textQueue|)
      ensures force ==> count == ForcedCount(textQueue, cfg.limit)
    {
      force, count := false, 0;
      var total, c := 0, 0;
      while c < |textQueue|
        invariant 0 <= c <= |textQueue|
        invariant 0 <= total && (total < cfg.limit || c == total == 0)
        invariant c + ForcedCount(textQueue[c..], cfg.limit - total) == ForcedCount(textQueue, cfg.limit)
      {
        assert textQueue[c..][1..] == textQueue[c + 1..];
        total := total + |textQueue[c]|;
        if total >= cfg.limit {
          return true, c + 1;
        }
        c := c + 1;
      }
    }

    /** The locked part of ExecuteQueued: decides what to parse now, whether to flush
        after it, and leaves the rest queued. */
    method TakeQueued() returns (t: Taken)
      requires !waitingForFlushToFinish
      modifies this
      ensures Taking(View(), t) == TakeBatch(old(View()), cfg)
    {
      var forceFlush, count := true, |textQueue|;
      if !(networkFlushOutstanding && cfg.followFlushes) {
        forceFlush, count := FindForcedFlush();
      }
      var batch := textQueue;
      assert batch[..|batch|] == batch && batch[|batch|..] == [];
      if forceFlush && count != |textQueue| {
        batch := textQueue[..count];
        textQueue := textQueue[count..];
      } else {
        textQueue := [];
      }
      var doFlush := networkFlushOutstanding || forceFlush;
      t := Taken(batch, doFlush, doneOutstanding, doneResult, forceFlush);
      networkFlushOutstanding := false;
      queueRunJobCreated := false;
      if doFlush {
        waitingForFlushToFinish := true;
      }
    }

    method FinishLocked() returns (detach: bool)
      requires !waitingForFlushToFinish
      modifies this
      ensures View() == BeginFinish(old(View()))
      ensures detach == old(awaitingLookup)
    {
      doneOutstanding := false;
      finishing := true;
      detach := awaitingLookup;
      awaitingLookup := false;
    }
  }

  // ----- Chunks and batches -----

  lemma ChunksStep(str: Bytes, size: nat, pos: nat, before: seq<Bytes>)
    requires size >= 1 && pos < |str|
    ensures var n := Min(size, |str| - pos);
            (before + [str[pos..pos + n]]) + Chunks(str[pos + n..], size) == before + Chunks(str[pos..], size)
  {
    var n := Min(size, |str| - pos);
    assert str[pos..][..n] == str[pos..pos + n] && str[pos..][n..] == str[pos + n..];
  }

  lemma {:induction false} ChunksCarryText(str: Bytes, size: nat)
    requires size >= 1
    ensures Flatten(Chunks(str, size)) == str
    ensures forall c :: c in Chunks(str, size) ==> 1 <= |c| <= size
    decreases |str|
  {
    if str != [] {
      var n := Min(size, |str|);
      var rest := Chunks(str[n..], size);
      ChunksCarryText(str[n..], size);
      FlattenAppend([str[..n]], rest);
      FlattenOne(str[..n]);
      assert str == str[..n] + str[n..];
    }
  }

  /** Only the last chunk may be short. */
  lemma {:induction false} ChunksAreFull(str: Bytes, size: nat, i: nat)
    requires size >= 1 && i + 1 < |Chunks(str, size)|
    ensures |Chunks(str, size)[i]| == size
    decreases |str|
  {
    var n := Min(size, |str|);
    assert n < |str| ==> |str[..n]| == size;
    if i > 0 {
      ChunksAreFull(str[n..], size, i - 1);
    }
  }

  lemma {:induction false} ForcedCountMeaning(queue: seq<Bytes>, limit: nat)
    ensures var n := ForcedCount(queue, limit);
            if n <= |queue| then |Flatten(queue[..n])| >= limit && (n > 1 ==> |Flatten(queue[..n - 1])| < limit)
            else queue != [] ==> |Flatten(queue)| < limit
  {
    if queue != [] && |queue[0]| < limit {
      var n := ForcedCount(queue, limit);
      ForcedCountMeaning(queue[1..], limit - |queue[0]|);
      if n <= |queue| {
        assert queue[..n][1..] == queue[1..][..n - 1];
        if n > 2 {
          assert queue[..n - 1][1..] == queue[1..][..n - 2];
        }
      }
    } else if queue != [] {
      assert queue[..1] == [queue[0]];
      FlattenOne(queue[0]);
    }
  }

  /** A batch is a prefix of the queue, nothing is left behind without a forced flush,
      and a flush holds off the next batch until it ends. */
  lemma BatchIsPrefix(f: Fetch, cfg: Config)
    ensures var Taking(g, t) := TakeBatch(f, cfg);
            && t.batch + g.queue == f.queue
            && (t.force ==> t.doFlush) && (t.doFlush ==> g.gate.waitingForFlush)
            && (!t.force ==> g.queue == [])
            && (t.batch == [] ==> f.queue == [])
  {
    var Taking(g, t) := TakeBatch(f, cfg);
    var count := |t.batch|;
    assert f.queue[..count] + f.queue[count..] == f.queue;
  }

  /** With a limit of L bytes, and no origin flush to follow, a batch is shorter than
      2L, and L bytes or more always ask for a flush. */
  lemma BatchBound(f: Fetch, cfg: Config)
    requires forall c :: c in f.queue ==> |c| <= cfg.ChunkSize()
    requires !(f.owed.networkFlush && cfg.followFlushes) && cfg.limit >= 1
    ensures var t := TakeBatch(f, cfg).t;
            && |Flatten(t.batch)| < 2 * cfg.limit
            && (t.force <==> |Flatten(t.batch)| >= cfg.limit)
  {
    var t := TakeBatch(f, cfg).t;
    var n := ForcedCount(f.queue, cfg.limit);
    ForcedCountMeaning(f.queue, cfg.limit);
    if n <= |f.queue| {
      assert t.batch == f.queue[..n - 1] + [f.queue[n - 1]];
      FlattenPush(f.queue[..n - 1], f.queue[n - 1]);
      assert f.queue[n - 1] in f.queue;
      if n == 1 {
        assert f.queue[..n - 1] == [];
      }
    } else {
      assert t.batch == f.queue;
    }
  }
}
