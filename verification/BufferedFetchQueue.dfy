/** The fetch that queues what other threads ask for and performs it on the request
    thread: a coalescing queue, its consumer, and the log it stands for. */
module BufferedFetching {
  import opened ByteStreams

  datatype Op = HeadersComplete | Write(bytes: Bytes) | Flush | Done

  // ----- The log that a list of operations stands for -----

  /** Adjacent writes are one write; an empty write is none. */
  function Log(log: seq<Op>, op: Op): seq<Op> {
    if !op.Write? then log + [op]
    else if op.bytes == [] then log
    else if log != [] && log[|log| - 1].Write? then log[..|log| - 1] + [Write(log[|log| - 1].bytes + op.bytes)]
    else log + [op]
  }

  function LogAll(log: seq<Op>, ops: seq<Op>): seq<Op>
    decreases |ops|
  {
    if ops == [] then log else LogAll(Log(log, ops[0]), ops[1..])
  }

  function Meaning(ops: seq<Op>): seq<Op> {
    LogAll([], ops)
  }

  lemma {:induction false} LogAppend(log: seq<Op>, xs: seq<Op>, ys: seq<Op>)
    ensures LogAll(log, xs + ys) == LogAll(LogAll(log, xs), ys)
    decreases |xs|
  {
    if xs == [] {
      assert xs + ys == ys;
    } else {
      assert (xs + ys)[0] == xs[0] && (xs + ys)[1..] == xs[1..] + ys;
      LogAppend(Log(log, xs[0]), xs[1..], ys);
    }
  }

  lemma LogOne(log: seq<Op>, op: Op)
    ensures LogAll(log, [op]) == Log(log, op)
  {
    assert [op][1..] == [];
  }

  lemma MeaningPush(ops: seq<Op>, op: Op)
    ensures Meaning(ops + [op]) == Log(Meaning(ops), op)
  {
    LogAppend([], ops, [op]);
    LogOne(Meaning(ops), op);
  }

  lemma LogMerges(log: seq<Op>, front: Bytes, back: Bytes)
    ensures Log(log, Write(front + back)) == Log(Log(log, Write(front)), Write(back))
  {
    if front == [] {
      assert front + back == back;
    } else if back == [] {
      assert front + back == front;
    } else if log != [] && log[|log| - 1].Write? {
      var bytes := log[|log| - 1].bytes;
      assert bytes + (front + back) == (bytes + front) + back;
    }
  }

  /** The text of a log is the text of the operations, and so is what precedes each
      operation that is no write: equal meanings have equal bytes before each of them. */
  function Text(ops: seq<Op>): Bytes {
    if ops == [] then []
    else Text(ops[..|ops| - 1]) + if ops[|ops| - 1].Write? then ops[|ops| - 1].bytes else []
  }

  lemma TextPush(ops: seq<Op>, op: Op)
    ensures Text(ops + [op]) == Text(ops) + if op.Write? then op.bytes else []
  {
    assert (ops + [op])[..|ops|] == ops;
  }

  lemma LogText(log: seq<Op>, op: Op)
    ensures Text(Log(log, op)) == Text(log) + if op.Write? then op.bytes else []
  {
    TextPush(log, op);
    if op.Write? && op.bytes != [] && log != [] && log[|log| - 1].Write? {
      var front, last := log[..|log| - 1], log[|log| - 1];
      TextPush(front, Write(last.bytes + op.bytes));
      assert (Text(front) + last.bytes) + op.bytes == Text(front) + (last.bytes + op.bytes);
    }
  }

  lemma {:induction false} MeaningText(ops: seq<Op>)
    ensures Text(Meaning(ops)) == Text(ops)
    decreases |ops|
  {
    if ops != [] {
      var front, op := ops[..|ops| - 1], ops[|ops| - 1];
      assert ops == front + [op];
      MeaningText(front);
      MeaningPush(front, op);
      LogText(Meaning(front), op);
    }
  }

  /** How many bytes precede each operation that is no write. */
  datatype Mark = Mark(op: Op, at: nat)

  function Marks(ops: seq<Op>): seq<Mark> {
    if ops == [] then []
    else
      var front, op := ops[..|ops| - 1], ops[|ops| - 1];
      Marks(front) + if op.Write? then [] else [Mark(op, |Text(front)|)]
  }

  lemma MarksPush(ops: seq<Op>, op: Op)
    ensures Marks(ops + [op]) == Marks(ops) + if op.Write? then [] else [Mark(op, |Text(ops)|)]
  {
    assert (ops + [op])[..|ops|] == ops;
  }

  lemma LogMarks(log: seq<Op>, op: Op)
    ensures Marks(Log(log, op)) == Marks(log) + if op.Write? then [] else [Mark(op, |Text(log)|)]
  {
    MarksPush(log, op);
    if op.Write? && op.bytes != [] && log != [] && log[|log| - 1].Write? {
      MarksPush(log[..|log| - 1], Write(log[|log| - 1].bytes + op.bytes));
    }
  }

  lemma {:induction false} MeaningMarks(ops: seq<Op>)
    ensures Marks(Meaning(ops)) == Marks(ops)
    decreases |ops|
  {
    if ops != [] {
      var front, op := ops[..|ops| - 1], ops[|ops| - 1];
      assert ops == front + [op];
      MeaningMarks(front);
      MeaningText(front);
      MeaningPush(front, op);
      LogMarks(Meaning(front), op);
      MarksPush(front, op);
    }
  }

  // ----- The queue -----

  /** A write joins the write at the back, if one is there. */
  function Enqueue(queue: seq<Op>, op: Op): seq<Op> {
    if op.Write? && queue != [] && queue[|queue| - 1].Write? then
      queue[..|queue| - 1] + [Write(queue[|queue| - 1].bytes + op.bytes)]
    else queue + [op]
  }

  lemma EnqueueMeans(before: seq<Op>, queue: seq<Op>, op: Op)
    ensures Meaning(before + Enqueue(queue, op)) == Log(Meaning(before + queue), op)
  {
    if op.Write? && queue != [] && queue[|queue| - 1].Write? {
      var front, last := queue[..|queue| - 1], queue[|queue| - 1];
      assert before + queue == (before + front) + [last];
      assert before + Enqueue(queue, op) == (before + front) + [Write(last.bytes + op.bytes)];
      MeaningPush(before + front, last);
      MeaningPush(before + front, Write(last.bytes + op.bytes));
      LogMerges(Meaning(before + front), last.bytes, op.bytes);
    } else {
      assert before + Enqueue(queue, op) == (before + queue) + [op];
      MeaningPush(before + queue, op);
    }
  }

  // Where the request thread is in Wait.
  datatype Consumer = Ready | Parked | Holding(op: Op) | Returned

  datatype Buffered = Buffered(queue: seq<Op>, consumer: Consumer, performed: seq<Op>, issued: seq<Op>)

  datatype Step = Issue(op: Op) | Take | Wake | Perform

  const NEW_FETCH := Buffered([], Ready, [], [])

  /** A producer pushes and signals under the mutex. */
  function Issued(b: Buffered, op: Op): Buffered {
    b.(
      queue := Enqueue(b.queue, op),
      issued := b.issued + [op],
      consumer := if b.consumer.Parked? then Ready else b.consumer)
  }

  /** The consumer's turn under the mutex: it takes an operation, or waits for a signal. */
  function TakeOp(b: Buffered): Buffered {
    if b.queue == [] then b.(consumer := Parked)
    else b.(queue := b.queue[1..], consumer := Holding(b.queue[0]))
  }

  function Performed(performed: seq<Op>, op: Op): seq<Op> {
    if op.Done? || (op.Write? && op.bytes == []) then performed else performed + [op]
  }

  function PerformOp(b: Buffered): Buffered
    requires b.consumer.Holding?
  {
    var op := b.consumer.op;
    b.(performed := Performed(b.performed, op), consumer := if op.Done? then Returned else Ready)
  }

  /** Nothing is issued after Done; a waiting consumer may wake for no reason. */
  predicate Enabled(b: Buffered, step: Step) {
    match step
    case Issue(_) => Done !in b.issued
    case Take => b.consumer.Ready?
    case Wake => b.consumer.Parked?
    case Perform => b.consumer.Holding?
  }

  function Apply(b: Buffered, step: Step): Buffered
    requires Enabled(b, step)
  {
    match step
    case Issue(op) => Issued(b, op)
    case Take => TakeOp(b)
    case Wake => b.(consumer := Ready)
    case Perform => PerformOp(b)
  }

  ghost predicate CanRun(b: Buffered, steps: seq<Step>)
    decreases |steps|
  {
    steps != [] ==> Enabled(b, steps[0]) && CanRun(Apply(b, steps[0]), steps[1..])
  }

  ghost function Run(b: Buffered, steps: seq<Step>): Buffered
    requires CanRun(b, steps)
    decreases |steps|
  {
    if steps == [] then b else Run(Apply(b, steps[0]), steps[1..])
  }

  /** What the consumer has taken and not yet performed; Done is never performed. */
  function InHand(consumer: Consumer): seq<Op> {
    match consumer
    case Holding(op) => [op]
    case Returned => [Done]
    case _ => []
  }

  ghost predicate DoneLast(ops: seq<Op>) {
    forall i :: 0 <= i < |ops| && ops[i] == Done ==> i == |ops| - 1
  }

  ghost predicate Kept(b: Buffered) {
    && Meaning(b.performed + InHand(b.consumer) + b.queue) == Meaning(b.issued)
    && DoneLast(b.issued) && DoneLast(b.queue)
    && (Done in b.issued <==> Done in b.queue || Done in InHand(b.consumer))
    && (Done in InHand(b.consumer) ==> b.queue == [])
    && Done !in b.performed
    && (b.consumer.Parked? ==> b.queue == [])
  }

  lemma IssueKeeps(b: Buffered, op: Op)
    requires Kept(b) && Done !in b.issued
    ensures Kept(Issued(b, op))
  {
    EnqueueMeans(b.performed + InHand(b.consumer), b.queue, op);
    MeaningPush(b.issued, op);
    var queue := Enqueue(b.queue, op);
    assert queue[|queue| - 1] == Done <==> op == Done;
    forall i | 0 <= i < |queue| - 1
      ensures queue[i] != Done
    {
      assert queue[i] == b.queue[i] && b.queue[i] in b.queue;
    }
  }

  lemma TakeKeeps(b: Buffered)
    requires Kept(b) && b.consumer.Ready?
    ensures Kept(TakeOp(b))
  {
    assert b.performed + [] + b.queue == b.performed + b.queue;
    if b.queue == [] {
      assert InHand(Parked) == InHand(Ready);
    } else {
      assert b.queue == [b.queue[0]] + b.queue[1..];
      assert b.performed + [b.queue[0]] + b.queue[1..] == b.performed + b.queue;
    }
  }

  /** No two writes stand next to each other. */
  ghost predicate Coalesced(queue: seq<Op>) {
    forall i :: 0 <= i < |queue| - 1 ==> !(queue[i].Write? && queue[i + 1].Write?)
  }

  lemma StepCoalesces(b: Buffered, step: Step)
    requires Enabled(b, step) && Coalesced(b.queue)
    ensures Coalesced(Apply(b, step).queue)
  {
  }

  /** However operations arrive, adjacent writes wait as one. */
  lemma {:induction false} QueueIsCoalesced(b: Buffered, steps: seq<Step>)
    requires Coalesced(b.queue) && CanRun(b, steps)
    ensures Coalesced(Run(b, steps).queue)
    decreases |steps|
  {
    if steps != [] {
      StepCoalesces(b, steps[0]);
      QueueIsCoalesced(Apply(b, steps[0]), steps[1..]);
    }
  }

  lemma EmptyWriteMeansNothing(before: seq<Op>, after: seq<Op>)
    ensures Meaning(before + [Write([])] + after) == Meaning(before + after)
  {
    LogAppend([], before + [Write([])], after);
    MeaningPush(before, Write([]));
    LogAppend([], before, after);
  }

  lemma PerformKeeps(b: Buffered)
    requires Kept(b) && b.consumer.Holding?
    ensures Kept(PerformOp(b))
  {
    var op := b.consumer.op;
    var q := PerformOp(b);
    if op == Write([]) {
      EmptyWriteMeansNothing(b.performed, b.queue);
      assert b.performed + [] + b.queue == b.performed + b.queue;
    } else if op != Done {
      assert b.performed + [op] + [] + b.queue == b.performed + [op] + b.queue;
    }
  }

  lemma {:induction false} RunKeeps(b: Buffered, steps: seq<Step>)
    requires Kept(b) && CanRun(b, steps)
    ensures Kept(Run(b, steps))
    decreases |steps|
  {
    if steps != [] {
      match steps[0] {
        case Issue(op) => IssueKeeps(b, op);
        case Take => TakeKeeps(b);
        case Wake => assert InHand(Parked) == InHand(Ready);
        case Perform => PerformKeeps(b);
      }
      RunKeeps(Apply(b, steps[0]), steps[1..]);
    }
  }

  /** In every interleaving, what was performed, what the consumer holds and what is
      queued mean what was issued. */
  lemma QueueRefinesLog(steps: seq<Step>)
    requires CanRun(NEW_FETCH, steps)
    ensures var b := Run(NEW_FETCH, steps);
            Meaning(b.performed + InHand(b.consumer) + b.queue) == Meaning(b.issued)
  {
    RunKeeps(NEW_FETCH, steps);
  }

  lemma MeaningBeforeDone(xs: seq<Op>, ys: seq<Op>)
    requires Meaning(xs + [Done]) == Meaning(ys + [Done])
    ensures Meaning(xs) == Meaning(ys)
  {
    MeaningPush(xs, Done);
    MeaningPush(ys, Done);
    assert (Meaning(xs) + [Done])[..|Meaning(xs)|] == Meaning(xs);
    assert (Meaning(ys) + [Done])[..|Meaning(ys)|] == Meaning(ys);
  }

  /** Wait returns only once all that was issued before Done has been performed: the same
      text, and headers and flushes at the same bytes of it. */
  lemma ReturnsWhenAllPerformed(steps: seq<Step>, b: Buffered)
    requires CanRun(NEW_FETCH, steps) && b == Run(NEW_FETCH, steps) && b.consumer.Returned?
    ensures b.issued != []
    ensures var before := b.issued[..|b.issued| - 1];
            && b.issued == before + [Done]
            && Meaning(b.performed) == Meaning(before)
            && Text(b.performed) == Text(before) && Marks(b.performed) == Marks(before)
  {
    RunKeeps(NEW_FETCH, steps);
    var before := b.issued[..|b.issued| - 1];
    assert b.issued == before + [Done];
    assert b.performed + [Done] + [] == b.performed + [Done];
    MeaningBeforeDone(b.performed, before);
    MeaningText(b.performed);
    MeaningText(before);
    MeaningMarks(b.performed);
    MeaningMarks(before);
  }

  /** The consumer never sleeps past an operation, so once Done is issued it can always
      go on, without a spurious wakeup, until it returns. */
  lemma NoLostSignal(steps: seq<Step>)
    requires CanRun(NEW_FETCH, steps)
    ensures var b := Run(NEW_FETCH, steps);
            && (b.consumer.Parked? ==> b.queue == [] && Done !in b.issued)
            && (Done in b.issued && !b.consumer.Returned? ==>
                  b.consumer.Holding? || (b.consumer.Ready? && TakeOp(b).consumer.Holding?))
  {
    RunKeeps(NEW_FETCH, steps);
  }

  // ----- The class -----

  /** What the other threads issue, batch by batch. */
  function Arrivals(feed: seq<seq<Op>>): seq<Op> {
    if feed == [] then [] else feed[0] + Arrivals(feed[1..])
  }

  class SimpleBufferedApacheFetch {
    var queue: seq<Op>
    var waitCalled: bool
    // What the writer was asked to do.
    var writer: seq<Op>
    ghost var issued: seq<Op>

    ghost function View(): Buffered
      reads this
    {
      Buffered(queue, Ready, writer, issued)
    }

    constructor ()
      ensures View() == NEW_FETCH && !waitCalled
    {
      queue, waitCalled, writer, issued := [], false, [], [];
    }

    method HandleHeadersComplete()
      modifies this
      ensures View() == Issued(old(View()), HeadersComplete) && waitCalled == old(waitCalled)
    {
      queue := queue + [HeadersComplete];
      issued := issued + [HeadersComplete];
    }

    method HandleWrite(text: Bytes)
      modifies this
      ensures View() == Issued(old(View()), Write(text)) && waitCalled == old(waitCalled)
    {
      if queue == [] || !queue[|queue| - 1].Write? {
        queue := queue + [Write([])];
      }
      var back := queue[|queue| - 1];
      assert [] + text == text;
      queue := queue[..|queue| - 1] + [Write(back.bytes + text)];
      issued := issued + [Write(text)];
    }

    method HandleFlush()
      modifies this
      ensures View() == Issued(old(View()), Flush) && waitCalled == old(waitCalled)
    {
      queue := queue + [Flush];
      issued := issued + [Flush];
    }

    method HandleDone()
      modifies this
      ensures View() == Issued(old(View()), Done) && waitCalled == old(waitCalled)
    {
      queue := queue + [Done];
      issued := issued + [Done];
    }

    /** Other threads get the mutex and issue a batch. */
    method Arrive(batch: seq<Op>)
      requires Kept(View()) && (batch != [] ==> Done !in issued) && DoneLast(batch)
      modifies this
      ensures Kept(View()) && issued == old(issued) + batch && writer == old(writer) && waitCalled == old(waitCalled)
      ensures |queue| <= |old(queue)| + |batch|
    {
      for i := 0 to |batch|
        invariant Kept(View()) && issued == old(issued) + batch[..i]
        invariant writer == old(writer) && waitCalled == old(waitCalled)
        invariant |queue| <= |old(queue)| + i
        invariant i < |batch| ==> Done !in issued
      {
        var op := batch[i];
        IssueKeeps(View(), op);
        match op {
          case HeadersComplete => HandleHeadersComplete();
          case Write(text) => HandleWrite(text);
          case Flush => HandleFlush();
          case Done => HandleDone();
        }
        assert batch[..i + 1] == batch[..i] + [op];
      }
      assert batch[..|batch|] == batch;
    }

    /** Pops the front operation, waiting for arrivals while there is none; `k` batches of
        the feed have arrived so far. */
    method WaitForOp(feed: seq<seq<Op>>, k: nat) returns (op: Op, more: nat)
      requires k <= |feed| && Kept(View())
      requires Done in issued + Arrivals(feed[k..]) && DoneLast(issued + Arrivals(feed[k..]))
      modifies this
      ensures k <= more <= |feed| && writer == old(writer) && waitCalled == old(waitCalled)
      ensures Kept(View().(consumer := Holding(op)))
      ensures issued + Arrivals(feed[more..]) == old(issued + Arrivals(feed[k..]))
      ensures |queue| + |Arrivals(feed[more..])| < old(|queue| + |Arrivals(feed[k..])|)
    {
      more := k;
      ghost var all := issued + Arrivals(feed[k..]);
      while queue == []
        invariant k <= more <= |feed| && Kept(View()) && writer == old(writer) && waitCalled == old(waitCalled)
        invariant issued + Arrivals(feed[more..]) == all
        invariant |queue| + |Arrivals(feed[more..])| <= old(|queue| + |Arrivals(feed[k..])|)
        decreases |feed| - more
      {
        NextBatch(View(), feed, more);
        Arrive(feed[more]);
        more := more + 1;
      }
      ghost var found := View();
      TakeKeeps(found);
      op := queue[0];
      queue := queue[1..];
      assert View().(consumer := Holding(op)) == TakeOp(found);
    }

    /** What the loop does with one operation; an empty write is not passed on. */
    method Dispatch(op: Op) returns (finished: bool)
      modifies this`writer
      ensures writer == Performed(old(writer), op) && finished == op.Done?
    {
      finished := false;
      match op {
        case HeadersComplete => writer := writer + [op];
        case Write(bytes) =>
          if bytes != [] {
            writer := writer + [op];
          }
        case Flush => writer := writer + [op];
        case Done => finished := true;
      }
    }

    /** The loop of the request thread. */
    method Wait(feed: seq<seq<Op>>, ghost before: seq<Op>)
      requires View() == NEW_FETCH && !waitCalled
      requires Arrivals(feed) == before + [Done] && Done !in before
      modifies this
      ensures waitCalled && issued == before + [Done]
      ensures Meaning(writer) == Meaning(before)
    {
      waitCalled := true;
      var k: nat := 0;
      assert feed[0..] == feed && [] + Arrivals(feed) == Arrivals(feed);
      var finished := false;
      while !finished
        invariant k <= |feed| && issued + Arrivals(feed[k..]) == before + [Done] && waitCalled
        invariant Kept(View().(consumer := if finished then Returned else Ready))
        decreases |queue| + |Arrivals(feed[k..])|, !finished
      {
        var op;
        op, k := WaitForOp(feed, k);
        PerformKeeps(View().(consumer := Holding(op)));
        finished := Dispatch(op);
      }
      ReturnedMeans(View().(consumer := Returned), Arrivals(feed[k..]), before);
    }
  }

  lemma ReturnedMeans(b: Buffered, rest: seq<Op>, before: seq<Op>)
    requires Kept(b) && b.consumer.Returned? && b.issued + rest == before + [Done] && Done !in before
    ensures b.issued == before + [Done] && Meaning(b.performed) == Meaning(before)
  {
    DoneEnds(b.issued, rest, before);
    assert b.performed + [Done] + [] == b.performed + [Done];
    MeaningBeforeDone(b.performed, before);
  }

  /** While the queue is empty and nothing is held, Done has yet to arrive. */
  lemma MoreToCome(b: Buffered, feed: seq<seq<Op>>, k: nat)
    requires Kept(b) && b.queue == [] && b.consumer.Ready? && k <= |feed|
    requires Done in b.issued + Arrivals(feed[k..])
    ensures k < |feed| && Done !in b.issued
  {
    assert feed[|feed|..] == [];
    assert b.issued + [] == b.issued;
  }

  lemma NextBatch(b: Buffered, feed: seq<seq<Op>>, k: nat)
    requires Kept(b) && b.queue == [] && b.consumer.Ready? && k <= |feed|
    requires Done in b.issued + Arrivals(feed[k..]) && DoneLast(b.issued + Arrivals(feed[k..]))
    ensures k < |feed| && DoneLast(feed[k]) && Done !in b.issued
    ensures b.issued + Arrivals(feed[k..]) == (b.issued + feed[k]) + Arrivals(feed[k + 1..])
    ensures |Arrivals(feed[k..])| == |feed[k]| + |Arrivals(feed[k + 1..])|
  {
    MoreToCome(b, feed, k);
    var issued := b.issued;
    assert feed[k..][0] == feed[k] && feed[k..][1..] == feed[k + 1..];
    var rest := Arrivals(feed[k + 1..]);
    assert issued + (feed[k] + rest) == (issued + feed[k]) + rest;
    SplitDone(issued, feed[k], rest);
  }

  lemma SplitDone(issued: seq<Op>, batch: seq<Op>, rest: seq<Op>)
    requires DoneLast(issued + (batch + rest))
    ensures DoneLast(batch) && (batch != [] ==> Done !in issued)
  {
    var all := issued + (batch + rest);
    forall i | 0 <= i < |batch| && batch[i] == Done
      ensures i == |batch| - 1
    {
      assert all[|issued| + i] == Done;
    }
    forall i | 0 <= i < |issued|
      ensures issued[i] == Done ==> batch == []
    {
      assert all[i] == issued[i];
    }
  }

  lemma DoneEnds(issued: seq<Op>, rest: seq<Op>, before: seq<Op>)
    requires issued + rest == before + [Done] && Done !in before && Done in issued
    ensures issued == before + [Done]
  {
    var all := before + [Done];
    forall i | 0 <= i < |issued|
      ensures issued[i] == Done ==> i == |before|
    {
      assert all[i] == issued[i] == (issued + rest)[i];
    }
    assert issued + rest == issued;
  }
}
