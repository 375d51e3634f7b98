/** Whole serves of a borrowed span: what the core output filter and its helpers may do
    with the buckets, interleaved with the cache's writers, and what reaches the client. */
module ZeroCopyServes {
  import opened ByteStreams
  import opened MappedRegions
  import opened MmapBuckets

  /** `brigade` is still to be sent, in order; `aside` are copies held elsewhere; `wire`
      is what the client got. */
  datatype Serve = Serve(
    region: Region,
    brigade: seq<Bucket>,
    aside: seq<Bucket>,
    shared: Shared,
    wire: Bytes,
    failed: bool)

  /** One bucket's read in a burst: what happens before it, and how a copy fares. */
  datatype ReadPlan = ReadPlan(before: seq<Event>, luck: Luck)

  datatype Act =
    | Elapse(events: seq<Event>)
    | SplitAt(i: nat, point: nat)
    | CopyAside(i: nat)
    | Park(i: nat, luck: Luck)
    | ParkAside(i: nat, luck: Luck)
    | DropAside(i: nat)
    | Discard
    | Burst(plans: seq<ReadPlan>, sends: seq<seq<Event>>)

  function Ref(b: Bucket): nat {
    if b.kind.AliasKind? then 1 else 0
  }

  function AliasCount(buckets: seq<Bucket>): nat {
    if buckets == [] then 0 else Ref(buckets[0]) + AliasCount(buckets[1..])
  }

  lemma {:induction false} AliasAppend(xs: seq<Bucket>, ys: seq<Bucket>)
    ensures AliasCount(xs + ys) == AliasCount(xs) + AliasCount(ys)
    decreases |xs|
  {
    if xs == [] {
      assert xs + ys == ys;
    } else {
      assert (xs + ys)[0] == xs[0] && (xs + ys)[1..] == xs[1..] + ys;
      AliasAppend(xs[1..], ys);
    }
  }

  lemma AliasAt(buckets: seq<Bucket>, i: nat, b: Bucket)
    requires i < |buckets|
    ensures AliasCount(buckets[i := b]) + Ref(buckets[i]) == AliasCount(buckets) + Ref(b)
    ensures AliasCount(buckets[..i] + buckets[i + 1..]) + Ref(buckets[i]) == AliasCount(buckets)
    ensures buckets[i].kind.AliasKind? ==> AliasCount(buckets) > 0
  {
    assert buckets == buckets[..i] + ([buckets[i]] + buckets[i + 1..]);
    assert buckets[i := b] == buckets[..i] + ([b] + buckets[i + 1..]);
    AliasAppend(buckets[..i], [buckets[i]] + buckets[i + 1..]);
    AliasAppend(buckets[..i], [b] + buckets[i + 1..]);
    AliasAppend(buckets[..i], buckets[i + 1..]);
  }

  // ----- Reading some buckets -----

  predicate AllInSpan(r: Region, buckets: seq<Bucket>) {
    forall i :: 0 <= i < |buckets| ==> InSpan(r, buckets[i])
  }

  datatype ReadMany = ReadMany(r: Region, buckets: seq<Bucket>, sh: Shared, sources: seq<Source>, ok: bool)

  /** One bucket's read, after what happens before it. */
  function FirstRead(r: Region, p: Policy, b: Bucket, sh: Shared, plan: ReadPlan): ReadResult
    requires InSpan(r, b) && (b.kind.AliasKind? ==> sh.refs > 0)
  {
    IntactMeansUnchanged(r, p, plan.before);
    AfterRead(HappenAll(r, p, plan.before), p, b, sh, plan.luck)
  }

  lemma FirstReadCounts(r: Region, p: Policy, b: Bucket, sh: Shared, plan: ReadPlan)
    requires InSpan(r, b) && (b.kind.AliasKind? ==> sh.refs > 0)
    ensures var d := FirstRead(r, p, b, sh, plan);
            && Later(r, d.r) && Counted(b, sh, d.b, d.sh) && d.b.start == b.start && d.b.length == b.length
  {
    IntactMeansUnchanged(r, p, plan.before);
    ReadKeeps(HappenAll(r, p, plan.before), p, b, sh, plan.luck);
  }

  /** A burst reads buckets from the front until one fails. */
  function ReadAll(r: Region, p: Policy, buckets: seq<Bucket>, sh: Shared, plans: seq<ReadPlan>): ReadMany
    requires AllInSpan(r, buckets) && AliasCount(buckets) <= sh.refs
    decreases |buckets|
  {
    if buckets == [] || plans == [] then ReadMany(r, buckets, sh, [], true)
    else
      FirstReadCounts(r, p, buckets[0], sh, plans[0]);
      var d := FirstRead(r, p, buckets[0], sh, plans[0]);
      if d.source.NoData? then ReadMany(d.r, [d.b] + buckets[1..], d.sh, [], false)
      else
        var rest := ReadAll(d.r, p, buckets[1..], d.sh, plans[1..]);
        ReadMany(rest.r, [d.b] + rest.buckets, rest.sh, [d.source] + rest.sources, rest.ok)
  }

  /** What any operation keeps of the region. */
  ghost predicate Later(r: Region, q: Region) {
    |q.bytes| == |r.bytes| && q.now >= r.now && (r.moved ==> q.moved) && (!q.moved ==> q.bytes == r.bytes)
  }

  /** A reference is kept exactly as long as the bucket aliases. */
  ghost predicate Counted(b: Bucket, sh: Shared, c: Bucket, th: Shared) {
    && th.refs + (if b.kind.AliasKind? then 1 else 0) == sh.refs + (if c.kind.AliasKind? then 1 else 0)
    && (sh.releases == (if sh.refs == 0 then 1 else 0) ==> th.releases == if th.refs == 0 then 1 else 0)
  }

  lemma CopyOutKeeps(r: Region, p: Policy, b: Bucket, sh: Shared, luck: Luck)
    requires b.kind.AliasKind? && InSpan(r, b) && sh.refs > 0
    ensures var m := AfterCopyOut(r, p, b, sh, luck);
            && Later(r, m.r) && Counted(b, sh, m.b, m.sh) && m.b.start == b.start && m.b.length == b.length
            && (m.status == OutOfMemory <==> m.b.kind.AliasKind?) && m.sh.refs + 1 >= sh.refs
            && (m.status == Success ==>
                  !r.moved && !m.r.moved && m.b.kind == HeapKind(r.bytes[b.start..b.start + b.length]))
  {
    if luck.allocates {
      CopyThenVerify(r, p, b.start, b.length, luck.weather);
    }
  }

  lemma ReadKeeps(r: Region, p: Policy, b: Bucket, sh: Shared, luck: Luck)
    requires InSpan(r, b) && (b.kind.AliasKind? ==> sh.refs > 0)
    ensures var d := AfterRead(r, p, b, sh, luck);
            && Later(r, d.r) && Counted(b, sh, d.b, d.sh) && d.b.start == b.start && d.b.length == b.length
            && d.sh.refs <= sh.refs && (!b.kind.AliasKind? ==> d.b == b && d.sh == sh)
  {
    if b.kind.AliasKind? {
      CopyOutKeeps(RenewLeaseStrict(r, p).r, p, b, sh, luck);
    }
  }

  // ----- Sending from what the reads returned -----

  datatype Cell = InRegion(at: nat) | Private(byte: Byte)

  function CellsOf(source: Source): seq<Cell> {
    match source
    case NoData(_) => []
    case Aliased(at, n) => seq(n, i requires 0 <= i < n => InRegion(at + i))
    case Owned(bytes) => seq(|bytes|, i requires 0 <= i < |bytes| => Private(bytes[i]))
  }

  function Cells(sources: seq<Source>): seq<Cell> {
    if sources == [] then [] else CellsOf(sources[0]) + Cells(sources[1..])
  }

  datatype Sent = Sent(r: Region, bytes: Bytes)

  /** The kernel takes bytes one at a time, each after some events, for as long as the
      burst lasts. */
  function SendBytes(r: Region, p: Policy, cells: seq<Cell>, sends: seq<seq<Event>>, until: nat): (s: Sent)
    requires forall i :: 0 <= i < |cells| && cells[i].InRegion? ==> cells[i].at < |r.bytes|
    ensures |s.bytes| <= |cells|
    decreases |cells|
  {
    if cells == [] || sends == [] then Sent(r, [])
    else
      IntactMeansUnchanged(r, p, sends[0]);
      var q := HappenAll(r, p, sends[0]);
      if q.now >= until then Sent(q, [])
      else
        var byte := match cells[0] case InRegion(at) => q.bytes[at] case Private(b) => b;
        var rest := SendBytes(q, p, cells[1..], sends[1..], until);
        Sent(rest.r, [byte] + rest.bytes)
  }

  /** The cells stand for the original's bytes from `from` on. */
  ghost predicate StandFor(cells: seq<Cell>, original: Bytes, from: nat) {
    && from + |cells| <= |original|
    && forall i :: 0 <= i < |cells| ==>
        match cells[i] case InRegion(at) => at == from + i case Private(b) => b == original[from + i]
  }

  ghost predicate AllPrivate(cells: seq<Cell>) {
    forall i :: 0 <= i < |cells| ==> cells[i].Private?
  }

  /** What the client gets in a burst is the original's next bytes. */
  lemma {:induction false} SendsOriginal(r: Region, p: Policy, cells: seq<Cell>, sends: seq<seq<Event>>,
                                         until: nat, original: Bytes, from: nat)
    requires StandFor(cells, original, from) && |r.bytes| == |original|
    requires AllPrivate(cells) || (Shielded(r, until) && r.bytes == original)
    requires until <= r.now + p.ceiling
    ensures var s := SendBytes(r, p, cells, sends, until);
            && s.bytes == original[from..from + |s.bytes|] && Later(r, s.r)
    decreases |cells|
  {
    if cells != [] && sends != [] {
      IntactMeansUnchanged(r, p, sends[0]);
      var q := HappenAll(r, p, sends[0]);
      if q.now < until {
        if !AllPrivate(cells) {
          ShieldHolds(r, p, sends[0], until);
        }
        SendsOriginal(q, p, cells[1..], sends[1..], until, original, from + 1);
        var rest := SendBytes(q, p, cells[1..], sends[1..], until);
        var last := from + 1 + |rest.bytes|;
        assert original[from..last] == [original[from]] + original[from + 1..last];
      }
    }
  }

  // ----- A read gives the original's bytes -----

  /** The bucket's window, and its bytes if it has its own. */
  ghost predicate Good(b: Bucket, original: Bytes) {
    b.start + b.length <= |original| && (b.kind.HeapKind? ==> b.kind.bytes == original[b.start..b.start + b.length])
  }

  ghost predicate AllGood(buckets: seq<Bucket>, original: Bytes) {
    forall i :: 0 <= i < |buckets| ==> Good(buckets[i], original)
  }

  /** A read that succeeds returns the window of the original, in memory of its own, or
      in the region with no wrap able to commit for a read margin or a lease, whichever
      is shorter. */
  lemma ReadGivesOriginal(r: Region, p: Policy, b: Bucket, sh: Shared, luck: Luck, original: Bytes, until: nat)
    requires |r.bytes| == |original| && (!r.moved ==> r.bytes == original)
    requires Good(b, original) && (b.kind.AliasKind? ==> sh.refs > 0)
    requires until <= r.now + READ_MARGIN && until <= r.now + p.lease
    ensures var d := AfterRead(r, p, b, sh, luck);
            !d.source.NoData? ==>
              && Good(d.b, original)
              && StandFor(CellsOf(d.source), original, b.start) && |CellsOf(d.source)| == b.length
              && (d.source.Aliased? ==> Shielded(d.r, until) && d.r.bytes == original)
  {
    if b.kind.AliasKind? {
      var v := RenewLeaseStrict(r, p);
      CopyOutKeeps(v.r, p, b, sh, luck);
      if v.verdict == Ok && ForcedWrapBeyond(v.r, READ_MARGIN) {
        RenewalShields(r, p, until);
      }
    }
  }

  lemma {:induction false} CopyHoldsShield(r: Region, p: Policy, from: nat, n: nat, weather: nat -> seq<Event>,
                                           until: nat)
    requires from + n <= |r.bytes| && Shielded(r, until) && until <= r.now + p.ceiling
    requires CopyBytes(r, p, from, n, weather).r.now < until
    ensures Shielded(CopyBytes(r, p, from, n, weather).r, until)
  {
    if n > 0 {
      var c := CopyBytes(r, p, from, n - 1, weather);
      CopyThenVerify(r, p, from, n - 1, weather);
      IntactMeansUnchanged(c.r, p, weather(n - 1));
      CopyHoldsShield(r, p, from, n - 1, weather, until);
      ShieldHolds(c.r, p, weather(n - 1), until);
    }
  }

  lemma ReadHoldsShield(r: Region, p: Policy, b: Bucket, sh: Shared, luck: Luck, until: nat)
    requires InSpan(r, b) && (b.kind.AliasKind? ==> sh.refs > 0)
    requires Shielded(r, until) && until <= r.now + p.ceiling && AfterRead(r, p, b, sh, luck).r.now < until
    ensures Shielded(AfterRead(r, p, b, sh, luck).r, until)
  {
    if b.kind.AliasKind? && luck.allocates {
      var v := RenewLeaseStrict(r, p);
      assert Shielded(v.r, until);
      if v.verdict != Ok || !ForcedWrapBeyond(v.r, READ_MARGIN) {
        CopyHoldsShield(v.r, p, b.start, b.length, luck.weather, until);
      }
    }
  }

  // ----- Reading some buckets gives the original's next bytes -----

  /** The buckets' windows follow each other from `at` to `end`. */
  predicate Contiguous(buckets: seq<Bucket>, at: nat, end: nat) {
    if buckets == [] then at == end
    else buckets[0].start == at && Contiguous(buckets[1..], at + buckets[0].length, end)
  }

  lemma {:induction false} ContiguousEnds(buckets: seq<Bucket>, at: nat, end: nat)
    requires Contiguous(buckets, at, end)
    ensures at <= end
    decreases |buckets|
  {
    if buckets != [] {
      ContiguousEnds(buckets[1..], at + buckets[0].length, end);
    }
  }

  ghost predicate Released(sh: Shared) {
    sh.releases == if sh.refs == 0 then 1 else 0
  }

  lemma {:induction false} ReadAllKeeps(r: Region, p: Policy, buckets: seq<Bucket>, sh: Shared, plans: seq<ReadPlan>)
    requires AllInSpan(r, buckets) && AliasCount(buckets) <= sh.refs
    ensures var m := ReadAll(r, p, buckets, sh, plans);
            && Later(r, m.r) && AllInSpan(m.r, m.buckets)
            && m.sh.refs + AliasCount(buckets) == sh.refs + AliasCount(m.buckets)
            && (Released(sh) ==> Released(m.sh))
    decreases |buckets|
  {
    if buckets != [] && plans != [] {
      var d := FirstRead(r, p, buckets[0], sh, plans[0]);
      FirstReadCounts(r, p, buckets[0], sh, plans[0]);
      if !d.source.NoData? {
        ReadAllKeeps(d.r, p, buckets[1..], d.sh, plans[1..]);
        var rest := ReadAll(d.r, p, buckets[1..], d.sh, plans[1..]);
        assert ([d.b] + rest.buckets)[1..] == rest.buckets;
      } else {
        assert ([d.b] + buckets[1..])[1..] == buckets[1..];
      }
    }
  }

  lemma {:induction false} ReadAllHoldsShield(r: Region, p: Policy, buckets: seq<Bucket>, sh: Shared,
      plans: seq<ReadPlan>, until: nat)
    requires AllInSpan(r, buckets) && AliasCount(buckets) <= sh.refs
    requires Shielded(r, until) && until <= r.now + p.ceiling && ReadAll(r, p, buckets, sh, plans).r.now < until
    ensures Shielded(ReadAll(r, p, buckets, sh, plans).r, until)
    decreases |buckets|
  {
    if buckets != [] && plans != [] {
      IntactMeansUnchanged(r, p, plans[0].before);
      var q := HappenAll(r, p, plans[0].before);
      var d := AfterRead(q, p, buckets[0], sh, plans[0].luck);
      ReadKeeps(q, p, buckets[0], sh, plans[0].luck);
      if !d.source.NoData? {
        ReadAllKeeps(d.r, p, buckets[1..], d.sh, plans[1..]);
      }
      ShieldHolds(r, p, plans[0].before, until);
      ReadHoldsShield(q, p, buckets[0], sh, plans[0].luck, until);
      if !d.source.NoData? {
        ReadAllHoldsShield(d.r, p, buckets[1..], d.sh, plans[1..], until);
      }
    }
  }

  lemma StandForAppend(xs: seq<Cell>, ys: seq<Cell>, original: Bytes, from: nat)
    requires StandFor(xs, original, from) && StandFor(ys, original, from + |xs|)
    ensures StandFor(xs + ys, original, from)
    ensures AllPrivate(xs) && AllPrivate(ys) ==> AllPrivate(xs + ys)
  {
  }

  /** The cells that a burst may send from are right, and stay right until its end. */
  ghost predicate Sendable(r: Region, cells: seq<Cell>, original: Bytes, until: nat) {
    r.now < until ==> AllPrivate(cells) || (Shielded(r, until) && r.bytes == original)
  }

  /** What a burst has read is right: buckets in place, cells ready to send. */
  ghost predicate ReadRight(m: ReadMany, original: Bytes, at: nat, end: nat, until: nat) {
    && AllGood(m.buckets, original) && Contiguous(m.buckets, at, end)
    && StandFor(Cells(m.sources), original, at) && at + |Cells(m.sources)| <= end
    && Sendable(m.r, Cells(m.sources), original, until)
  }

  lemma CellsCons(source: Source, sources: seq<Source>)
    ensures Cells([source] + sources) == CellsOf(source) + Cells(sources)
  {
    assert ([source] + sources)[1..] == sources;
  }

  lemma OneMoreRead(b: Bucket, source: Source, m: ReadMany, original: Bytes, at: nat, end: nat, until: nat)
    requires Good(b, original) && b.start == at
    requires StandFor(CellsOf(source), original, at) && |CellsOf(source)| == b.length
    requires ReadRight(m, original, at + b.length, end, until)
    requires source.Aliased? && m.r.now < until ==> Shielded(m.r, until) && m.r.bytes == original
    ensures ReadRight(m.(buckets := [b] + m.buckets, sources := [source] + m.sources), original, at, end, until)
  {
    CellsCons(source, m.sources);
    StandForAppend(CellsOf(source), Cells(m.sources), original, at);
    assert ([b] + m.buckets)[1..] == m.buckets;
    assert !source.Aliased? ==> AllPrivate(CellsOf(source));
  }

  /** The first read of a burst, and what it leaves to the rest. */
  lemma FirstReadGivesOriginal(r: Region, p: Policy, b: Bucket, sh: Shared, plan: ReadPlan, original: Bytes, until: nat)
    requires |r.bytes| == |original| && (!r.moved ==> r.bytes == original)
    requires Good(b, original) && (b.kind.AliasKind? ==> sh.refs > 0)
    requires until <= r.now + READ_MARGIN && until <= r.now + p.lease
    ensures var d := FirstRead(r, p, b, sh, plan);
            && Later(r, d.r) && d.b.start == b.start && d.b.length == b.length
            && (!d.source.NoData? ==>
                  && Good(d.b, original) && StandFor(CellsOf(d.source), original, b.start)
                  && |CellsOf(d.source)| == b.length
                  && (d.source.Aliased? ==> Shielded(d.r, until) && d.r.bytes == original))
  {
    IntactMeansUnchanged(r, p, plan.before);
    var q := HappenAll(r, p, plan.before);
    ReadKeeps(q, p, b, sh, plan.luck);
    ReadGivesOriginal(q, p, b, sh, plan.luck, original, until);
  }

  /** What the first read aliases stays right while the others are read. */
  lemma ShieldLasts(d: ReadResult, p: Policy, buckets: seq<Bucket>, plans: seq<ReadPlan>, original: Bytes, until: nat)
    requires AllInSpan(d.r, buckets) && AliasCount(buckets) <= d.sh.refs && until <= d.r.now + p.ceiling
    requires d.source.Aliased? ==> Shielded(d.r, until) && d.r.bytes == original
    ensures var m := ReadAll(d.r, p, buckets, d.sh, plans);
            d.source.Aliased? && m.r.now < until ==> Shielded(m.r, until) && m.r.bytes == original
  {
    ReadAllKeeps(d.r, p, buckets, d.sh, plans);
    if d.source.Aliased? && ReadAll(d.r, p, buckets, d.sh, plans).r.now < until {
      ReadAllHoldsShield(d.r, p, buckets, d.sh, plans, until);
    }
  }

  lemma {:induction false} ReadAllGivesOriginal(r: Region, p: Policy, buckets: seq<Bucket>, sh: Shared,
                                                plans: seq<ReadPlan>, original: Bytes, at: nat, end: nat, until: nat)
    requires AllInSpan(r, buckets) && AliasCount(buckets) <= sh.refs
    requires |r.bytes| == |original| && (!r.moved ==> r.bytes == original)
    requires AllGood(buckets, original) && Contiguous(buckets, at, end) && end <= |original|
    requires until <= r.now + READ_MARGIN && until <= r.now + p.lease && until <= r.now + p.ceiling
    ensures var m := ReadAll(r, p, buckets, sh, plans);
            m.ok ==> ReadRight(m, original, at, end, until)
    decreases |buckets|
  {
    ContiguousEnds(buckets, at, end);
    if buckets != [] && plans != [] {
      var b := buckets[0];
      var d := FirstRead(r, p, b, sh, plans[0]);
      FirstReadGivesOriginal(r, p, b, sh, plans[0], original, until);
      FirstReadCounts(r, p, b, sh, plans[0]);
      if !d.source.NoData? {
        var rest := ReadAll(d.r, p, buckets[1..], d.sh, plans[1..]);
        ReadAllKeeps(d.r, p, buckets[1..], d.sh, plans[1..]);
        ReadAllGivesOriginal(d.r, p, buckets[1..], d.sh, plans[1..], original, at + b.length, end, until);
        if rest.ok {
          ShieldLasts(d, p, buckets[1..], plans[1..], original, until);
          OneMoreRead(d.b, d.source, rest, original, at, end, until);
        }
      }
    }
  }

  // ----- What each act does -----

  /** Takes what was sent off the front of the brigade. */
  datatype Advanced = Advanced(buckets: seq<Bucket>, sh: Shared)

  function Advance(buckets: seq<Bucket>, sh: Shared, n: nat): Advanced
    requires AliasCount(buckets) <= sh.refs
    decreases |buckets|
  {
    if buckets == [] then Advanced(buckets, sh)
    else if n >= buckets[0].length then Advance(buckets[1..], AfterDestroy(buckets[0], sh), n - buckets[0].length)
    else Advanced([BackOf(buckets[0], n)] + buckets[1..], sh)
  }

  function SplitIn(buckets: seq<Bucket>, i: nat, point: nat): seq<Bucket>
    requires i < |buckets| && point <= buckets[i].length
    decreases i
  {
    if i == 0 then [FrontOf(buckets[0], point), BackOf(buckets[0], point)] + buckets[1..]
    else [buckets[0]] + SplitIn(buckets[1..], i - 1, point)
  }

  /** In every reachable state: the region's bytes are the original's until the epoch
      moves; the shared count is that of the buckets that alias, and the pin is released
      with the last; and while the serve has not failed the client's bytes and the
      brigade's windows make up the original. */
  ghost predicate Kept(s: Serve, original: Bytes) {
    && |s.region.bytes| == |original| && (!s.region.moved ==> s.region.bytes == original)
    && AllInSpan(s.region, s.brigade) && AllGood(s.aside, original)
    && s.shared.refs == AliasCount(s.brigade) + AliasCount(s.aside) && Released(s.shared)
    && |s.wire| <= |original| && s.wire == original[..|s.wire|]
    && (!s.failed ==> AllGood(s.brigade, original) && Contiguous(s.brigade, |s.wire|, |original|))
  }

  function SendBurst(s: Serve, p: Policy, m: ReadMany, sends: seq<seq<Event>>, until: nat, original: Bytes): Serve
    requires StandFor(Cells(m.sources), original, |s.wire|) && |m.r.bytes| == |original|
        && AliasCount(m.buckets) <= m.sh.refs
  {
    var sent := SendBytes(m.r, p, Cells(m.sources), sends, until);
    var after := Advance(m.buckets, m.sh, |sent.bytes|);
    Serve(sent.r, after.buckets, s.aside, after.sh, s.wire + sent.bytes, false)
  }

  function DoBurst(s: Serve, p: Policy, plans: seq<ReadPlan>, sends: seq<seq<Event>>, original: Bytes): Serve
    requires Kept(s, original) && !s.failed && p.ceiling >= READ_MARGIN
  {
    var until := s.region.now + Min(READ_MARGIN, p.lease);
    var m := ReadAll(s.region, p, s.brigade, s.shared, plans);
    ReadAllKeeps(s.region, p, s.brigade, s.shared, plans);
    if !m.ok then s.(region := m.r, brigade := m.buckets, shared := m.sh, failed := true)
    else
      ReadAllGivesOriginal(s.region, p, s.brigade, s.shared, plans, original, |s.wire|, |original|, until);
      SendBurst(s, p, m, sends, until, original)
  }

  function DoAct(s: Serve, p: Policy, act: Act, original: Bytes): Serve
    requires Kept(s, original) && p.ceiling >= READ_MARGIN
  {
    match act
    case Elapse(events) => s.(region := HappenAll(s.region, p, events))
    case SplitAt(i, point) =>
      if i < |s.brigade| && point <= s.brigade[i].length && !s.brigade[i].kind.TornKind? then
        s.(brigade := SplitIn(s.brigade, i, point), shared := AfterShare(s.brigade[i], s.shared))
      else s
    case CopyAside(i) =>
      if i < |s.brigade| && !s.brigade[i].kind.TornKind? && !s.failed then
        s.(aside := s.aside + [s.brigade[i]], shared := AfterShare(s.brigade[i], s.shared))
      else s
    case Park(i, luck) =>
      if i < |s.brigade| then
        AliasAt(s.brigade, i, s.brigade[i]);
        var m := AfterSetaside(s.region, p, s.brigade[i], s.shared, luck);
        s.(region := m.r, brigade := s.brigade[i := m.b], shared := m.sh)
      else s
    case ParkAside(i, luck) =>
      if i < |s.aside| then
        AliasAt(s.aside, i, s.aside[i]);
        var m := AfterSetaside(s.region, p, s.aside[i], s.shared, luck);
        s.(region := m.r, aside := s.aside[i := m.b], shared := m.sh)
      else s
    case DropAside(i) =>
      if i < |s.aside| then
        AliasAt(s.aside, i, s.aside[i]);
        s.(aside := s.aside[..i] + s.aside[i + 1..], shared := AfterDestroy(s.aside[i], s.shared))
      else s
    case Discard =>
      if s.brigade != [] then
        s.(brigade := s.brigade[1..], shared := AfterDestroy(s.brigade[0], s.shared), failed := true)
      else s
    case Burst(plans, sends) => if s.failed then s else DoBurst(s, p, plans, sends, original)
  }

  // ----- What each act keeps -----

  lemma {:induction false} AdvanceKeeps(buckets: seq<Bucket>, sh: Shared, n: nat, original: Bytes, at: nat, end: nat)
    requires AliasCount(buckets) <= sh.refs && AllGood(buckets, original)
    requires Contiguous(buckets, at, end) && at + n <= end
    ensures var a := Advance(buckets, sh, n);
            && AllGood(a.buckets, original) && Contiguous(a.buckets, at + n, end)
            && a.sh.refs + AliasCount(buckets) == sh.refs + AliasCount(a.buckets)
            && (Released(sh) ==> Released(a.sh))
    decreases |buckets|
  {
    if buckets != [] {
      var b := buckets[0];
      if n >= b.length {
        AdvanceKeeps(buckets[1..], AfterDestroy(b, sh), n - b.length, original, at + b.length, end);
      } else {
        BackGood(b, n, original);
        var rest := [BackOf(b, n)] + buckets[1..];
        assert rest[1..] == buckets[1..];
      }
    }
  }

  lemma BackGood(b: Bucket, point: nat, original: Bytes)
    requires point <= b.length
    ensures BackOf(b, point).kind.AliasKind? == FrontOf(b, point).kind.AliasKind? == b.kind.AliasKind?
    ensures Good(b, original) ==> Good(BackOf(b, point), original) && Good(FrontOf(b, point), original)
  {
    if Good(b, original) {
      var cut, end := b.start + point, b.start + b.length;
      var w := original[b.start..end];
      assert w[..point] == original[b.start..cut] && w[point..] == original[cut..end];
    }
  }

  lemma {:induction false} SplitInKeeps(buckets: seq<Bucket>, i: nat, point: nat, original: Bytes, at: nat, end: nat)
    requires i < |buckets| && point <= buckets[i].length
    ensures var q := SplitIn(buckets, i, point);
            && AliasCount(q) == AliasCount(buckets) + (if buckets[i].kind.AliasKind? then 1 else 0)
            && (AllGood(buckets, original) ==> AllGood(q, original))
            && (Contiguous(buckets, at, end) ==> Contiguous(q, at, end))
    decreases i
  {
    BackGood(buckets[i], point, original);
    var q := SplitIn(buckets, i, point);
    if i == 0 {
      assert q[1..] == [q[1]] + buckets[1..] && q[1..][1..] == buckets[1..];
    } else {
      SplitInKeeps(buckets[1..], i - 1, point, original, at + buckets[0].length, end);
      assert q[1..] == SplitIn(buckets[1..], i - 1, point);
    }
  }

  lemma {:induction false} SplitInSpan(buckets: seq<Bucket>, i: nat, point: nat, r: Region)
    requires i < |buckets| && point <= buckets[i].length && AllInSpan(r, buckets)
    ensures AllInSpan(r, SplitIn(buckets, i, point))
    decreases i
  {
    if i > 0 {
      SplitInSpan(buckets[1..], i - 1, point, r);
    }
  }

  lemma {:induction false} SameWindows(xs: seq<Bucket>, ys: seq<Bucket>, at: nat, end: nat)
    requires |xs| == |ys| && forall i :: 0 <= i < |xs| ==> xs[i].start == ys[i].start && xs[i].length == ys[i].length
    requires Contiguous(xs, at, end)
    ensures Contiguous(ys, at, end)
    decreases |xs|
  {
    if xs != [] {
      SameWindows(xs[1..], ys[1..], at + xs[0].length, end);
    }
  }

  /** Setting a bucket aside keeps its window; it has the original's bytes in memory of
      its own, or it is poisoned. */
  lemma SetasideKeeps(r: Region, p: Policy, b: Bucket, sh: Shared, luck: Luck, original: Bytes)
    requires InSpan(r, b) && (b.kind.AliasKind? ==> sh.refs > 0)
    requires |r.bytes| == |original| && (!r.moved ==> r.bytes == original)
    ensures var m := AfterSetaside(r, p, b, sh, luck);
            && Later(r, m.r) && Counted(b, sh, m.b, m.sh) && m.b.start == b.start && m.b.length == b.length
            && m.status == Success && !m.b.kind.AliasKind?
            && (Good(b, original) ==> Good(m.b, original))
            && (b.kind.AliasKind? && m.r.moved ==> m.b.kind.TornKind?)
  {
    if b.kind.AliasKind? {
      CopyOutKeeps(r, p, b, sh, luck);
      if luck.allocates {
        CopyThenVerify(r, p, b.start, b.length, luck.weather);
      }
    }
  }

  /** A burst whose reads all succeeded sends the original's next bytes. */
  lemma BurstSends(m: ReadMany, p: Policy, sends: seq<seq<Event>>, until: nat, original: Bytes, at: nat)
    requires ReadRight(m, original, at, |original|, until) && |m.r.bytes| == |original| && until <= m.r.now + p.ceiling
    requires AliasCount(m.buckets) <= m.sh.refs
    ensures var sent := SendBytes(m.r, p, Cells(m.sources), sends, until);
            var a := Advance(m.buckets, m.sh, |sent.bytes|);
            && Later(m.r, sent.r) && original[..at] + sent.bytes == original[..at + |sent.bytes|]
            && AllGood(a.buckets, original) && Contiguous(a.buckets, at + |sent.bytes|, |original|)
            && a.sh.refs + AliasCount(m.buckets) == m.sh.refs + AliasCount(a.buckets)
            && (Released(m.sh) ==> Released(a.sh))
  {
    var sent := SendBytes(m.r, p, Cells(m.sources), sends, until);
    SendsInTime(m.r, p, Cells(m.sources), sends, until, original, at);
    AdvanceKeeps(m.buckets, m.sh, |sent.bytes|, original, at, |original|);
    assert original[..at + |sent.bytes|] == original[..at] + original[at..at + |sent.bytes|];
  }

  lemma SpansOfGood(r: Region, buckets: seq<Bucket>, original: Bytes)
    requires AllGood(buckets, original) && |r.bytes| == |original|
    ensures AllInSpan(r, buckets)
  {
  }

  lemma SendBurstKeeps(s: Serve, p: Policy, m: ReadMany, sends: seq<seq<Event>>, until: nat, original: Bytes)
    requires AllGood(s.aside, original) && |s.wire| <= |original| && s.wire == original[..|s.wire|]
    requires ReadRight(m, original, |s.wire|, |original|, until) && until <= m.r.now + p.ceiling
    requires |m.r.bytes| == |original| && (!m.r.moved ==> m.r.bytes == original)
    requires m.sh.refs == AliasCount(m.buckets) + AliasCount(s.aside) && Released(m.sh)
    ensures Kept(SendBurst(s, p, m, sends, until, original), original)
    ensures s.wire <= SendBurst(s, p, m, sends, until, original).wire
  {
    BurstSends(m, p, sends, until, original, |s.wire|);
    var t := SendBurst(s, p, m, sends, until, original);
    SpansOfGood(t.region, t.brigade, original);
  }

  lemma BurstKeeps(s: Serve, p: Policy, plans: seq<ReadPlan>, sends: seq<seq<Event>>, original: Bytes)
    requires Kept(s, original) && !s.failed && p.ceiling >= READ_MARGIN
    ensures Kept(DoBurst(s, p, plans, sends, original), original)
    ensures s.wire <= DoBurst(s, p, plans, sends, original).wire
  {
    var until := s.region.now + Min(READ_MARGIN, p.lease);
    var m := ReadAll(s.region, p, s.brigade, s.shared, plans);
    ReadAllKeeps(s.region, p, s.brigade, s.shared, plans);
    if m.ok {
      ReadAllGivesOriginal(s.region, p, s.brigade, s.shared, plans, original, |s.wire|, |original|, until);
      SendBurstKeeps(s, p, m, sends, until, original);
    }
  }

  lemma SendsInTime(r: Region, p: Policy, cells: seq<Cell>, sends: seq<seq<Event>>, until: nat,
                    original: Bytes, from: nat)
    requires StandFor(cells, original, from) && |r.bytes| == |original|
    requires Sendable(r, cells, original, until) && until <= r.now + p.ceiling
    ensures var s := SendBytes(r, p, cells, sends, until);
            && s.bytes == original[from..from + |s.bytes|] && Later(r, s.r)
  {
    if r.now < until {
      SendsOriginal(r, p, cells, sends, until, original, from);
    } else if cells != [] && sends != [] {
      IntactMeansUnchanged(r, p, sends[0]);
    }
  }

  lemma ParkKeeps(s: Serve, p: Policy, i: nat, luck: Luck, original: Bytes)
    requires Kept(s, original) && p.ceiling >= READ_MARGIN
    ensures var t := DoAct(s, p, Park(i, luck), original);
            Kept(t, original) && s.wire == t.wire
  {
    if i < |s.brigade| {
      AliasAt(s.brigade, i, s.brigade[i]);
      var m := AfterSetaside(s.region, p, s.brigade[i], s.shared, luck);
      SetasideKeeps(s.region, p, s.brigade[i], s.shared, luck, original);
      AliasAt(s.brigade, i, m.b);
      if !s.failed {
        SameWindows(s.brigade, s.brigade[i := m.b], |s.wire|, |original|);
      }
    }
  }

  lemma ParkAsideKeeps(s: Serve, p: Policy, i: nat, luck: Luck, original: Bytes)
    requires Kept(s, original) && p.ceiling >= READ_MARGIN
    ensures var t := DoAct(s, p, ParkAside(i, luck), original);
            Kept(t, original) && s.wire == t.wire
  {
    if i < |s.aside| {
      AliasAt(s.aside, i, s.aside[i]);
      var m := AfterSetaside(s.region, p, s.aside[i], s.shared, luck);
      SetasideKeeps(s.region, p, s.aside[i], s.shared, luck, original);
      AliasAt(s.aside, i, m.b);
    }
  }

  lemma SplitKeeps(s: Serve, p: Policy, i: nat, point: nat, original: Bytes)
    requires Kept(s, original) && p.ceiling >= READ_MARGIN
    ensures var t := DoAct(s, p, SplitAt(i, point), original);
            Kept(t, original) && s.wire == t.wire
  {
    if i < |s.brigade| && point <= s.brigade[i].length {
      SplitInKeeps(s.brigade, i, point, original, |s.wire|, |original|);
      SplitInSpan(s.brigade, i, point, s.region);
      AliasAt(s.brigade, i, s.brigade[i]);
    }
  }

  lemma CopyKeeps(s: Serve, p: Policy, i: nat, original: Bytes)
    requires Kept(s, original) && p.ceiling >= READ_MARGIN
    ensures var t := DoAct(s, p, CopyAside(i), original);
            Kept(t, original) && s.wire == t.wire
  {
    if i < |s.brigade| {
      AliasAppend(s.aside, [s.brigade[i]]);
      assert AliasCount([s.brigade[i]]) == if s.brigade[i].kind.AliasKind? then 1 else 0 by {
        assert [s.brigade[i]][1..] == [];
      }
      AliasAt(s.brigade, i, s.brigade[i]);
    }
  }

  lemma DropKeeps(s: Serve, p: Policy, act: Act, original: Bytes)
    requires Kept(s, original) && p.ceiling >= READ_MARGIN && (act.DropAside? || act.Discard?)
    ensures var t := DoAct(s, p, act, original);
            Kept(t, original) && s.wire == t.wire
  {
    match act
    case DropAside(i) =>
      if i < |s.aside| {
        AliasAt(s.aside, i, s.aside[i]);
      }
    case Discard =>
  }

  lemma ActKeeps(s: Serve, p: Policy, act: Act, original: Bytes)
    requires Kept(s, original) && p.ceiling >= READ_MARGIN
    ensures Kept(DoAct(s, p, act, original), original)
    ensures s.wire <= DoAct(s, p, act, original).wire
  {
    match act
    case Elapse(events) => IntactMeansUnchanged(s.region, p, events);
    case Burst(plans, sends) =>
      if !s.failed {
        BurstKeeps(s, p, plans, sends, original);
      }
    case Park(i, luck) => ParkKeeps(s, p, i, luck, original);
    case ParkAside(i, luck) => ParkAsideKeeps(s, p, i, luck, original);
    case SplitAt(i, point) => SplitKeeps(s, p, i, point, original);
    case CopyAside(i) => CopyKeeps(s, p, i, original);
    case _ => DropKeeps(s, p, act, original);
  }

  // ----- Whole serves -----

  /** One bucket over the whole span, as the writer creates it. */
  function Start(region: Region): Serve {
    Serve(region, [Bucket(AliasKind, 0, |region.bytes|)], [], Shared(1, 0), [], false)
  }

  function DoActs(s: Serve, p: Policy, acts: seq<Act>, original: Bytes): Serve
    requires Kept(s, original) && p.ceiling >= READ_MARGIN
    decreases |acts|
  {
    if acts == [] then s
    else
      ActKeeps(s, p, acts[0], original);
      DoActs(DoAct(s, p, acts[0], original), p, acts[1..], original)
  }

  lemma {:induction false} ActsKeep(s: Serve, p: Policy, acts: seq<Act>, original: Bytes)
    requires Kept(s, original) && p.ceiling >= READ_MARGIN
    ensures Kept(DoActs(s, p, acts, original), original)
    decreases |acts|
  {
    if acts != [] {
      ActKeeps(s, p, acts[0], original);
      ActsKeep(DoAct(s, p, acts[0], original), p, acts[1..], original);
    }
  }

  lemma StartKept(region: Region)
    requires !region.moved
    ensures Kept(Start(region), region.bytes)
  {
    var b := Bucket(AliasKind, 0, |region.bytes|);
    assert [b][1..] == [] && AliasCount([b]) == 1 + AliasCount([]);
    assert Contiguous([b][1..], |region.bytes|, |region.bytes|);
  }

  /** Never corrupt but complete: whatever the writers do and however the buckets are
      split, copied, parked, read and sent, the client's bytes are a prefix of what was
      borrowed, and all of it if the brigade was consumed without a failure. */
  lemma ExactOrAborted(region: Region, p: Policy, acts: seq<Act>)
    requires !region.moved && p.ceiling >= READ_MARGIN
    ensures Kept(Start(region), region.bytes)
    ensures var s := DoActs(Start(region), p, acts, region.bytes);
            && s.wire <= region.bytes
            && (!s.failed && s.brigade == [] ==> s.wire == region.bytes)
  {
    StartKept(region);
    ActsKeep(Start(region), p, acts, region.bytes);
  }

  /** The shared count is the number of buckets that alias, so the pin is live whenever
      one of them renews, and is released exactly once, with the last. */
  lemma PinConserved(region: Region, p: Policy, acts: seq<Act>)
    requires !region.moved && p.ceiling >= READ_MARGIN
    ensures Kept(Start(region), region.bytes)
    ensures var s := DoActs(Start(region), p, acts, region.bytes);
            && s.shared.refs == AliasCount(s.brigade) + AliasCount(s.aside)
            && s.shared.releases == (if s.shared.refs == 0 then 1 else 0)
            && (s.brigade == [] && s.aside == [] ==> s.shared == Shared(0, 1))
            && (forall b :: b in s.brigade + s.aside && b.kind.AliasKind? ==> s.shared.releases == 0)
  {
    StartKept(region);
    ActsKeep(Start(region), p, acts, region.bytes);
    var s := DoActs(Start(region), p, acts, region.bytes);
    AliasAppend(s.brigade, s.aside);
    forall b | b in s.brigade + s.aside && b.kind.AliasKind?
      ensures s.shared.releases == 0
    {
      var i :| 0 <= i < |s.brigade + s.aside| && (s.brigade + s.aside)[i] == b;
      AliasAt(s.brigade + s.aside, i, b);
    }
  }

  /** Whatever became of the serve, a copy held elsewhere that can still be read gives its
      window of the original. */
  lemma CopyReadsOriginal(s: Serve, p: Policy, acts: seq<Act>, original: Bytes, b: Bucket, luck: Luck)
    requires Kept(s, original) && p.ceiling >= READ_MARGIN
    requires b in DoActs(s, p, acts, original).aside
    ensures var t := DoActs(s, p, acts, original);
            && InSpan(t.region, b) && (b.kind.AliasKind? ==> t.shared.refs > 0)
            && var d := AfterRead(t.region, p, b, t.shared, luck);
            !d.source.NoData? ==>
              Good(d.b, original) && StandFor(CellsOf(d.source), original, b.start) && |CellsOf(d.source)| == b.length
  {
    ActsKeep(s, p, acts, original);
    var t := DoActs(s, p, acts, original);
    var i :| 0 <= i < |t.aside| && t.aside[i] == b;
    AliasAt(t.aside, i, b);
    ReadGivesOriginal(t.region, p, b, t.shared, luck, original, 0);
  }

  // ----- Poisoned buckets -----

  function TotalLength(buckets: seq<Bucket>): nat {
    if buckets == [] then 0 else buckets[0].length + TotalLength(buckets[1..])
  }

  /** A burst that reaches a poisoned bucket, wherever it stands, fails. */
  lemma {:induction false} PoisonFailsReads(r: Region, p: Policy, buckets: seq<Bucket>, sh: Shared,
                                            plans: seq<ReadPlan>, k: nat)
    requires AllInSpan(r, buckets) && AliasCount(buckets) <= sh.refs
    requires k < |buckets| && k < |plans| && buckets[k].kind.TornKind?
    ensures !ReadAll(r, p, buckets, sh, plans).ok
    decreases k
  {
    var d := FirstRead(r, p, buckets[0], sh, plans[0]);
    FirstReadCounts(r, p, buckets[0], sh, plans[0]);
    if k > 0 && !d.source.NoData? {
      PoisonFailsReads(d.r, p, buckets[1..], d.sh, plans[1..], k - 1);
    }
  }

  lemma TotalCons(b: Bucket, buckets: seq<Bucket>, k: nat)
    requires k <= |buckets|
    ensures TotalLength(([b] + buckets)[..k + 1]) == b.length + TotalLength(buckets[..k])
  {
    var all := ([b] + buckets)[..k + 1];
    assert all[0] == b && all[1..] == buckets[..k];
  }

  /** A burst whose reads all succeed has stopped before every poisoned bucket, and has
      only cells from before it. */
  lemma {:induction false} ReadsStopBefore(r: Region, p: Policy, buckets: seq<Bucket>, sh: Shared,
                                           plans: seq<ReadPlan>, original: Bytes, k: nat)
    requires AllInSpan(r, buckets) && AliasCount(buckets) <= sh.refs && AllGood(buckets, original)
    requires |r.bytes| == |original| && (!r.moved ==> r.bytes == original)
    requires k < |buckets| && buckets[k].kind.TornKind? && ReadAll(r, p, buckets, sh, plans).ok
    ensures var m := ReadAll(r, p, buckets, sh, plans);
            && k < |m.buckets| && m.buckets[k] == buckets[k]
            && |Cells(m.sources)| <= TotalLength(m.buckets[..k])
    decreases k
  {
    if plans != [] {
      var d := FirstRead(r, p, buckets[0], sh, plans[0]);
      FirstReadCounts(r, p, buckets[0], sh, plans[0]);
      if k > 0 && !d.source.NoData? {
        FirstReadGivesOriginal(r, p, buckets[0], sh, plans[0], original, 0);
        ReadsStopBefore(d.r, p, buckets[1..], d.sh, plans[1..], original, k - 1);
        var rest := ReadAll(d.r, p, buckets[1..], d.sh, plans[1..]);
        CellsCons(d.source, rest.sources);
        TotalCons(d.b, rest.buckets, k - 1);
      }
    }
  }

  /** Sending what comes before a bucket that is not empty leaves it. */
  lemma {:induction false} AdvanceLeaves(buckets: seq<Bucket>, sh: Shared, n: nat, k: nat)
    requires AliasCount(buckets) <= sh.refs && k < |buckets| && buckets[k].kind.TornKind? && buckets[k].length > 0
    requires n <= TotalLength(buckets[..k])
    ensures buckets[k] in Advance(buckets, sh, n).buckets
    decreases k
  {
    if k > 0 {
      assert buckets[..k][1..] == buckets[1..][..k - 1];
      if n >= buckets[0].length {
        AdvanceLeaves(buckets[1..], AfterDestroy(buckets[0], sh), n - buckets[0].length, k - 1);
      } else {
        assert ([BackOf(buckets[0], n)] + buckets[1..])[k] == buckets[k];
      }
    } else {
      assert Advance(buckets, sh, n).buckets[0] == buckets[0];
    }
  }

  predicate IsPoison(b: Bucket) {
    b.kind.TornKind? && b.length > 0
  }

  /** What a burst leaves of the brigade when none of its reads failed. */
  lemma SendBurstLeaves(s: Serve, p: Policy, m: ReadMany, sends: seq<seq<Event>>, until: nat, original: Bytes,
                        k: nat, b: Bucket)
    requires StandFor(Cells(m.sources), original, |s.wire|) && |m.r.bytes| == |original|
    requires AliasCount(m.buckets) <= m.sh.refs
    requires k < |m.buckets| && m.buckets[k] == b && IsPoison(b) && |Cells(m.sources)| <= TotalLength(m.buckets[..k])
    ensures b in SendBurst(s, p, m, sends, until, original).brigade
  {
    AdvanceLeaves(m.buckets, m.sh, |SendBytes(m.r, p, Cells(m.sources), sends, until).bytes|, k);
  }

  lemma BurstIs(s: Serve, p: Policy, plans: seq<ReadPlan>, sends: seq<seq<Event>>, original: Bytes)
    requires Kept(s, original) && !s.failed && p.ceiling >= READ_MARGIN
    ensures var m := ReadAll(s.region, p, s.brigade, s.shared, plans);
            if m.ok then
              && StandFor(Cells(m.sources), original, |s.wire|) && |m.r.bytes| == |original|
              && AliasCount(m.buckets) <= m.sh.refs
              && DoBurst(s, p, plans, sends, original)
                 == SendBurst(s, p, m, sends, s.region.now + Min(READ_MARGIN, p.lease), original)
            else DoBurst(s, p, plans, sends, original).failed
  {
    var until := s.region.now + Min(READ_MARGIN, p.lease);
    ReadAllKeeps(s.region, p, s.brigade, s.shared, plans);
    if ReadAll(s.region, p, s.brigade, s.shared, plans).ok {
      ReadAllGivesOriginal(s.region, p, s.brigade, s.shared, plans, original, |s.wire|, |original|, until);
    }
  }

  lemma BurstLeavesPoison(s: Serve, p: Policy, plans: seq<ReadPlan>, sends: seq<seq<Event>>, original: Bytes,
                          k: nat, b: Bucket)
    requires Kept(s, original) && !s.failed && p.ceiling >= READ_MARGIN
    requires k < |s.brigade| && s.brigade[k] == b && IsPoison(b)
    ensures var t := DoBurst(s, p, plans, sends, original);
            t.failed || b in t.brigade
  {
    var m := ReadAll(s.region, p, s.brigade, s.shared, plans);
    BurstIs(s, p, plans, sends, original);
    if m.ok {
      ReadsStopBefore(s.region, p, s.brigade, s.shared, plans, original, k);
      SendBurstLeaves(s, p, m, sends, s.region.now + Min(READ_MARGIN, p.lease), original, k, b);
    }
  }

  lemma {:induction false} SplitLeaves(buckets: seq<Bucket>, i: nat, point: nat, b: Bucket)
    requires i < |buckets| && point <= buckets[i].length && b in buckets && buckets[i] != b
    ensures b in SplitIn(buckets, i, point)
    decreases i
  {
    if i > 0 && b in buckets[1..] {
      SplitLeaves(buckets[1..], i - 1, point, b);
    }
  }

  lemma ActLeavesPoison(s: Serve, p: Policy, act: Act, original: Bytes, b: Bucket)
    requires Kept(s, original) && p.ceiling >= READ_MARGIN && IsPoison(b) && b in s.brigade && !s.failed
    ensures var t := DoAct(s, p, act, original);
            t.failed || b in t.brigade
  {
    match act
    case Burst(plans, sends) =>
      var k :| 0 <= k < |s.brigade| && s.brigade[k] == b;
      BurstLeavesPoison(s, p, plans, sends, original, k, b);
    case SplitAt(i, point) =>
      if i < |s.brigade| && point <= s.brigade[i].length && s.brigade[i] != b {
        SplitLeaves(s.brigade, i, point, b);
      }
    case Park(i, luck) =>
      if i < |s.brigade| {
        AliasAt(s.brigade, i, s.brigade[i]);
        var k :| 0 <= k < |s.brigade| && s.brigade[k] == b;
        assert s.brigade[i := AfterSetaside(s.region, p, s.brigade[i], s.shared, luck).b][k] == b;
      }
    case _ =>
  }

  lemma {:induction false} FailedStays(s: Serve, p: Policy, acts: seq<Act>, original: Bytes)
    requires Kept(s, original) && p.ceiling >= READ_MARGIN && s.failed
    ensures DoActs(s, p, acts, original).failed
    decreases |acts|
  {
    if acts != [] {
      ActKeeps(s, p, acts[0], original);
      FailedStays(DoAct(s, p, acts[0], original), p, acts[1..], original);
    }
  }

  /** Once a bucket that is not empty is poisoned, the serve has failed or still holds that
      bucket, whatever is done next: it cannot end well. */
  lemma {:induction false} PoisonFailsServe(s: Serve, p: Policy, acts: seq<Act>, original: Bytes, b: Bucket)
    requires Kept(s, original) && p.ceiling >= READ_MARGIN && IsPoison(b) && b in s.brigade
    ensures var t := DoActs(s, p, acts, original);
            t.failed || b in t.brigade
    decreases |acts|
  {
    if s.failed {
      FailedStays(s, p, acts, original);
    } else if acts != [] {
      ActKeeps(s, p, acts[0], original);
      ActLeavesPoison(s, p, acts[0], original, b);
      var t := DoAct(s, p, acts[0], original);
      if t.failed {
        FailedStays(t, p, acts[1..], original);
      } else {
        PoisonFailsServe(t, p, acts[1..], original, b);
      }
    }
  }

  /** An empty one has nothing to lose: it goes with what is sent before it. */
  lemma EmptyPoisonMayGo(s: Serve, p: Policy, original: Bytes, b: Bucket)
    requires Kept(s, original) && p.ceiling >= READ_MARGIN && !s.failed
    requires s.brigade == [b] && b.kind.TornKind? && b.length == 0
    ensures var t := DoActs(s, p, [Burst([], [])], original);
            t.brigade == [] && !t.failed && t.wire == original
  {
    var act := Burst([], []);
    assert [act][1..] == [];
    ActKeeps(s, p, act, original);
    var t := DoAct(s, p, act, original);
    assert Advance(s.brigade, s.shared, 0) == Advance(s.brigade[1..], s.shared, 0);
    assert t.brigade == [];
  }

  /** Why a read error must end the serve: the bucket whose copy was torn is a bucket of
      its own bytes by then, and a second read of it hands them out. */
  lemma TornCopyReadsAgain(p: Policy)
    ensures exists r: Region, luck: Luck ::
              && !r.moved && |r.bytes| == 1
              && var d := AfterRead(r, p, Bucket(AliasKind, 0, 1), Shared(1, 0), luck);
              && d.source == NoData(Failure)
              && InSpan(d.r, d.b) && !d.b.kind.AliasKind?
              && AfterRead(d.r, p, d.b, d.sh, luck).source.Owned?
              && AfterRead(d.r, p, d.b, d.sh, luck).source.bytes != r.bytes
  {
    var r := Region(0, 0, true, NoDeadline, false, [0]);
    var luck := Luck(true, i => [CommitWrap, Overwrite(0, 1)]);
    var events := luck.weather(0);
    var torn := Happen(r, p, CommitWrap);
    assert events[1..] == [Overwrite(0, 1)] && events[1..][1..] == [];
    assert HappenAll(r, p, events) == HappenAll(torn, p, events[1..]) == Happen(torn, p, Overwrite(0, 1));
    assert CopyBytes(r, p, 0, 0, luck.weather) == Copied(r, []);
    var c := CopyBytes(r, p, 0, 1, luck.weather);
    assert c.bytes == [1] && c.r.moved;
    var d := AfterRead(r, p, Bucket(AliasKind, 0, 1), Shared(1, 0), luck);
    assert d.b.kind == HeapKind([1]) && r.bytes == [0];
  }
}
