/** What the queueing fetch is handed, mapped bodies among it, and what of it reaches the
    writer: a mapped body is copied and verified, and dropped whole if the borrow is torn. */
module BufferedMappedWrites {
  import opened ByteStreams
  import opened MappedRegions
  import opened BufferedFetching

  /** A call before Done. A mapped body is a borrow of `span`, as its region holds it at the
      call, copied with `weather(i)` happening before byte i. */
  datatype Call =
    | CompleteHeaders
    | WriteText(text: Bytes)
    | WriteMapped(span: Bytes, region: Region, weather: nat -> seq<Event>)
    | FlushText

  ghost predicate Borrowed(call: Call) {
    call.WriteMapped? ==>
      |call.region.bytes| == |call.span| && (!call.region.moved ==> call.region.bytes == call.span)
  }

  predicate TornCopy(call: Call, p: Policy) {
    call.WriteMapped? && !CopyVerified(call.region, p, call.weather).intact
  }

  function Handed(call: Call): Bytes {
    match call
    case WriteText(text) => text
    case WriteMapped(span, _, _) => span
    case _ => []
  }

  /** The text that a call goes on with. */
  function Delivered(call: Call, p: Policy): Bytes {
    match call
    case WriteText(text) => text
    case WriteMapped(_, region, weather) =>
      var v := CopyVerified(region, p, weather);
      if v.intact then v.bytes else []
    case _ => []
  }

  function HandedText(calls: seq<Call>): Bytes {
    if calls == [] then [] else Handed(calls[0]) + HandedText(calls[1..])
  }

  predicate NeedsHeaders(call: Call, p: Policy) {
    call.CompleteHeaders? || call.FlushText? || Delivered(call, p) != []
  }

  function HeadersOnce(headersComplete: bool): seq<Op> {
    if headersComplete then [] else [HeadersComplete]
  }

  /** The headers come with the first call that needs them; an empty text and a HEAD request
      write nothing. */
  function QueuedBy(call: Call, p: Policy, isHead: bool, headersComplete: bool): seq<Op> {
    if !NeedsHeaders(call, p) then []
    else
      HeadersOnce(headersComplete)
      + if call.CompleteHeaders? then [] else if call.FlushText? then [Flush]
        else if isHead then [] else [Write(Delivered(call, p))]
  }

  /** What the calls and the Done after them put on the queue. */
  function Queued(calls: seq<Call>, p: Policy, isHead: bool, headersComplete: bool): seq<Op> {
    if calls == [] then HeadersOnce(headersComplete) + [Done]
    else
      QueuedBy(calls[0], p, isHead, headersComplete)
      + Queued(calls[1..], p, isHead, headersComplete || NeedsHeaders(calls[0], p))
  }

  lemma {:induction false} TextAppend(xs: seq<Op>, ys: seq<Op>)
    ensures Text(xs + ys) == Text(xs) + Text(ys)
    decreases |ys|
  {
    if ys == [] {
      assert xs + ys == xs;
    } else {
      var front, op := ys[..|ys| - 1], ys[|ys| - 1];
      assert xs + ys == (xs + front) + [op];
      TextAppend(xs, front);
      TextPush(xs + front, op);
    }
  }

  lemma TextOne(op: Op)
    ensures Text([op]) == if op.Write? then op.bytes else []
  {
    assert [op][..0] == [];
  }

  function DeliveredText(calls: seq<Call>, p: Policy): Bytes {
    if calls == [] then [] else Delivered(calls[0], p) + DeliveredText(calls[1..], p)
  }

  lemma QueuedByText(call: Call, p: Policy, isHead: bool, headersComplete: bool)
    ensures Text(QueuedBy(call, p, isHead, headersComplete)) == if isHead then [] else Delivered(call, p)
  {
    var headers := HeadersOnce(headersComplete);
    TextOne(HeadersComplete);
    TextOne(Flush);
    TextOne(Write(Delivered(call, p)));
    TextAppend(headers, [Flush]);
    TextAppend(headers, [Write(Delivered(call, p))]);
    TextAppend(headers, []);
  }

  lemma {:induction false} QueuedText(calls: seq<Call>, p: Policy, isHead: bool, headersComplete: bool)
    ensures Text(Queued(calls, p, isHead, headersComplete)) == if isHead then [] else DeliveredText(calls, p)
    decreases |calls|
  {
    if calls == [] {
      TextOne(HeadersComplete);
      TextOne(Done);
      TextAppend(HeadersOnce(headersComplete), [Done]);
    } else {
      var complete := headersComplete || NeedsHeaders(calls[0], p);
      QueuedByText(calls[0], p, isHead, headersComplete);
      QueuedText(calls[1..], p, isHead, complete);
      TextAppend(QueuedBy(calls[0], p, isHead, headersComplete), Queued(calls[1..], p, isHead, complete));
    }
  }

  lemma DeliveredOrTorn(call: Call, p: Policy)
    requires Borrowed(call)
    ensures Delivered(call, p) == if TornCopy(call, p) then [] else Handed(call)
  {
    if call.WriteMapped? {
      CopyThenVerify(call.region, p, 0, |call.region.bytes|, call.weather);
    }
  }

  /** No borrow of anything was torn. */
  ghost predicate NothingTorn(calls: seq<Call>, p: Policy) {
    forall i :: 0 <= i < |calls| && TornCopy(calls[i], p) ==> Handed(calls[i]) == []
  }

  lemma {:induction false} DeliveredExactly(calls: seq<Call>, p: Policy)
    requires forall i :: 0 <= i < |calls| ==> Borrowed(calls[i])
    ensures |DeliveredText(calls, p)| <= |HandedText(calls)|
    ensures if NothingTorn(calls, p) then DeliveredText(calls, p) == HandedText(calls)
            else |DeliveredText(calls, p)| < |HandedText(calls)|
    decreases |calls|
  {
    if calls != [] {
      DeliveredOrTorn(calls[0], p);
      DeliveredExactly(calls[1..], p);
      assert NothingTorn(calls, p) <==>
          (TornCopy(calls[0], p) ==> Handed(calls[0]) == []) && NothingTorn(calls[1..], p) by {
        assert forall i :: 0 < i < |calls| ==> calls[i] == calls[1..][i - 1];
      }
    }
  }

  /** When Wait returns, the text performed is the text handed over if and only if no borrow
      of anything was torn under its copy; otherwise it is shorter, and what is performed has
      nothing that would say so. */
  lemma WholeUnlessTorn(steps: seq<Step>, b: Buffered, calls: seq<Call>, p: Policy, isHead: bool)
    requires CanRun(NEW_FETCH, steps) && b == Run(NEW_FETCH, steps) && b.consumer.Returned?
    requires b.issued == Queued(calls, p, isHead, false)
    requires forall i :: 0 <= i < |calls| ==> Borrowed(calls[i])
    ensures isHead ==> Text(b.performed) == []
    ensures !isHead ==>
              if NothingTorn(calls, p) then Text(b.performed) == HandedText(calls)
              else |Text(b.performed)| < |HandedText(calls)|
  {
    ReturnsWhenAllPerformed(steps, b);
    var before := b.issued[..|b.issued| - 1];
    TextPush(before, Done);
    QueuedText(calls, p, isHead, false);
    DeliveredExactly(calls, p);
  }

  lemma RunCons(b: Buffered, step: Step, steps: seq<Step>)
    requires Enabled(b, step) && CanRun(Apply(b, step), steps)
    ensures CanRun(b, [step] + steps) && Run(b, [step] + steps) == Run(Apply(b, step), steps)
  {
    assert ([step] + steps)[1..] == steps;
  }

  lemma TornQueuesNothing(p: Policy, call: Call)
    requires call.WriteMapped? && call.region.moved
    ensures Queued([CompleteHeaders, call], p, false, false) == [HeadersComplete, Done]
  {
    CopyThenVerify(call.region, p, 0, |call.region.bytes|, call.weather);
    assert [call][1..] == [] && [CompleteHeaders, call][1..] == [call];
    assert Queued([call], p, false, true) == [Done];
  }

  /** A body of one byte whose borrow is torn: the headers go out and Wait returns, with no
      byte of it performed. */
  lemma TornBodyIsDropped(p: Policy, region: Region, weather: nat -> seq<Event>) returns (steps: seq<Step>)
    requires region.moved && |region.bytes| == 1
    ensures CanRun(NEW_FETCH, steps)
    ensures var b := Run(NEW_FETCH, steps);
            && b.consumer.Returned? && b.performed == [HeadersComplete]
            && b.issued == Queued([CompleteHeaders, WriteMapped([0], region, weather)], p, false, false)
  {
    TornQueuesNothing(p, WriteMapped([0], region, weather));
    var b1 := Issued(NEW_FETCH, HeadersComplete);
    var b2 := Issued(b1, Done);
    var b3 := TakeOp(b2);
    var b4 := PerformOp(b3);
    var b5 := TakeOp(b4);
    RunCons(b5, Perform, []);
    RunCons(b4, Take, [Perform]);
    RunCons(b3, Perform, [Take, Perform]);
    RunCons(b2, Take, [Perform, Take, Perform]);
    RunCons(b1, Issue(Done), [Take, Perform, Take, Perform]);
    steps := [Issue(HeadersComplete)] + [Issue(Done), Take, Perform, Take, Perform];
    RunCons(NEW_FETCH, Issue(HeadersComplete), [Issue(Done), Take, Perform, Take, Perform]);
  }
}
