/** A serve that nothing disturbs: with no wrap declared, deferred or forced, everything is
    read in place and reaches the client. */
module CalmServes {
  import opened ByteStreams
  import opened MappedRegions
  import opened MmapBuckets
  import opened ZeroCopyServes

  /** No wrap is on its way. */
  predicate Calm(r: Region) {
    !r.moved && !r.intent && r.deadline.NoDeadline?
  }

  /** No writer begins to wrap, or puts a wrap off. */
  predicate Harmless(events: seq<Event>) {
    forall i :: 0 <= i < |events| ==> !events[i].DeclareWrap? && !events[i].DeferWrap?
  }

  function Elapsed(events: seq<Event>): nat {
    if events == [] then 0 else (if events[0].Tick? then events[0].ns else 0) + Elapsed(events[1..])
  }

  lemma {:induction false} ClockRuns(r: Region, p: Policy, events: seq<Event>)
    ensures HappenAll(r, p, events).now == r.now + Elapsed(events)
    decreases |events|
  {
    if events != [] {
      ClockRuns(Happen(r, p, events[0]), p, events[1..]);
    }
  }

  lemma {:induction false} StaysCalm(r: Region, p: Policy, events: seq<Event>)
    requires Calm(r) && Harmless(events)
    ensures Calm(HappenAll(r, p, events)) && HappenAll(r, p, events).bytes == r.bytes
    decreases |events|
  {
    if events != [] {
      assert Happen(r, p, events[0]).bytes == r.bytes;
      StaysCalm(Happen(r, p, events[0]), p, events[1..]);
    }
  }

  function ReadsTime(plans: seq<ReadPlan>): nat {
    if plans == [] then 0 else Elapsed(plans[0].before) + ReadsTime(plans[1..])
  }

  function SendsTime(sends: seq<seq<Event>>): nat {
    if sends == [] then 0 else Elapsed(sends[0]) + SendsTime(sends[1..])
  }

  ghost predicate AllHarmless(plans: seq<ReadPlan>) {
    forall i :: 0 <= i < |plans| ==> Harmless(plans[i].before)
  }

  predicate NonePoisoned(buckets: seq<Bucket>) {
    forall i :: 0 <= i < |buckets| ==> !buckets[i].kind.TornKind?
  }

  lemma CalmRead(r: Region, p: Policy, b: Bucket, sh: Shared, plan: ReadPlan, original: Bytes)
    requires Calm(r) && Harmless(plan.before) && !b.kind.TornKind? && InSpan(r, b) && Good(b, original)
    requires b.kind.AliasKind? ==> sh.refs > 0
    ensures var d := FirstRead(r, p, b, sh, plan);
            && !d.source.NoData? && |CellsOf(d.source)| == b.length
            && Calm(d.r) && d.r.now == r.now + Elapsed(plan.before)
  {
    var q := HappenAll(r, p, plan.before);
    IntactMeansUnchanged(r, p, plan.before);
    StaysCalm(r, p, plan.before);
    ClockRuns(r, p, plan.before);
    ReadOutcome(q, p, b, sh, plan.luck);
  }

  lemma {:induction false} CalmReads(r: Region, p: Policy, buckets: seq<Bucket>, sh: Shared, plans: seq<ReadPlan>,
                                     original: Bytes)
    requires AllInSpan(r, buckets) && AliasCount(buckets) <= sh.refs && AllGood(buckets, original)
    requires Calm(r) && AllHarmless(plans) && NonePoisoned(buckets) && |plans| >= |buckets|
    ensures var m := ReadAll(r, p, buckets, sh, plans);
            m.ok && |Cells(m.sources)| == TotalLength(buckets) && m.r.now <= r.now + ReadsTime(plans)
    decreases |buckets|
  {
    if buckets != [] {
      var d := FirstRead(r, p, buckets[0], sh, plans[0]);
      CalmRead(r, p, buckets[0], sh, plans[0], original);
      FirstReadCounts(r, p, buckets[0], sh, plans[0]);
      CalmReads(d.r, p, buckets[1..], d.sh, plans[1..], original);
      CellsCons(d.source, ReadAll(d.r, p, buckets[1..], d.sh, plans[1..]).sources);
    }
  }

  /** Every byte is taken if all that happens in between ends in time. */
  lemma {:induction false} AllSent(r: Region, p: Policy, cells: seq<Cell>, sends: seq<seq<Event>>, until: nat)
    requires forall i :: 0 <= i < |cells| && cells[i].InRegion? ==> cells[i].at < |r.bytes|
    requires |sends| >= |cells| && r.now + SendsTime(sends) < until
    ensures |SendBytes(r, p, cells, sends, until).bytes| == |cells|
    decreases |cells|
  {
    if cells != [] {
      IntactMeansUnchanged(r, p, sends[0]);
      ClockRuns(r, p, sends[0]);
      AllSent(HappenAll(r, p, sends[0]), p, cells[1..], sends[1..], until);
    }
  }

  lemma {:induction false} ContiguousLength(buckets: seq<Bucket>, at: nat, end: nat)
    requires Contiguous(buckets, at, end)
    ensures at + TotalLength(buckets) == end
    decreases |buckets|
  {
    if buckets != [] {
      ContiguousLength(buckets[1..], at + buckets[0].length, end);
    }
  }

  lemma {:induction false} AllTaken(buckets: seq<Bucket>, sh: Shared)
    requires AliasCount(buckets) <= sh.refs
    ensures Advance(buckets, sh, TotalLength(buckets)).buckets == []
    decreases |buckets|
  {
    if buckets != [] {
      AllTaken(buckets[1..], AfterDestroy(buckets[0], sh));
    }
  }

  /** A burst that plans every bucket and every byte, over a region that no writer wants,
      and that ends within the read margin and the lease, ends the serve well. */
  lemma CalmBurstServesAll(s: Serve, p: Policy, plans: seq<ReadPlan>, sends: seq<seq<Event>>, original: Bytes)
    requires Kept(s, original) && !s.failed && p.ceiling >= READ_MARGIN
    requires Calm(s.region) && AllHarmless(plans) && NonePoisoned(s.brigade)
    requires |plans| >= |s.brigade| && |sends| >= |original| - |s.wire|
    requires ReadsTime(plans) + SendsTime(sends) < READ_MARGIN && ReadsTime(plans) + SendsTime(sends) < p.lease
    ensures var t := DoAct(s, p, Burst(plans, sends), original);
            t.brigade == [] && !t.failed && t.wire == original
  {
    var until := s.region.now + Min(READ_MARGIN, p.lease);
    var m := ReadAll(s.region, p, s.brigade, s.shared, plans);
    var act := Burst(plans, sends);
    SpansOfGood(s.region, s.brigade, original);
    CalmReads(s.region, p, s.brigade, s.shared, plans, original);
    ContiguousLength(s.brigade, |s.wire|, |original|);
    BurstIs(s, p, plans, sends, original);
    ReadAllGivesOriginal(s.region, p, s.brigade, s.shared, plans, original, |s.wire|, |original|, until);
    ContiguousLength(m.buckets, |s.wire|, |original|);
    AllSent(m.r, p, Cells(m.sources), sends, until);
    AllTaken(m.buckets, m.sh);
    ActKeeps(s, p, act, original);
  }

  /** So a whole serve that is left alone consumes its brigade. */
  lemma CalmServeIsWhole(region: Region, p: Policy, plan: ReadPlan, sends: seq<seq<Event>>)
    requires Calm(region) && p.ceiling >= READ_MARGIN && Harmless(plan.before) && |sends| >= |region.bytes|
    requires Elapsed(plan.before) + SendsTime(sends) < READ_MARGIN
    requires Elapsed(plan.before) + SendsTime(sends) < p.lease
    ensures Kept(Start(region), region.bytes)
    ensures var s := DoActs(Start(region), p, [Burst([plan], sends)], region.bytes);
            s.brigade == [] && !s.failed && s.wire == region.bytes
  {
    StartKept(region);
    assert [plan][1..] == [];
    var act := Burst([plan], sends);
    CalmBurstServesAll(Start(region), p, [plan], sends, region.bytes);
    ActKeeps(Start(region), p, act, region.bytes);
    assert [act][1..] == [];
    assert DoActs(Start(region), p, [act], region.bytes) == DoAct(Start(region), p, act, region.bytes);
  }
}
