/** All buckets over one borrowed span, wherever they are kept: any of them may be split,
    copied, read, set aside and destroyed, in any order, copies of copies and buckets whose
    read has failed among them. */
module BucketPools {
  import opened ByteStreams
  import opened MappedRegions
  import opened MmapBuckets
  import opened ZeroCopyServes

  /** `failed` says of each bucket whether a read of it, or of one that it was cut or copied
      from, has reported an error other than the want of memory. */
  datatype Pool = Pool(region: Region, live: seq<Bucket>, failed: seq<bool>, shared: Shared)

  datatype BucketAct =
    | Pass(events: seq<Event>)
    | Split(i: nat, point: nat)
    | Copy(i: nat)
    | Read(i: nat, luck: Luck)
    | Setaside(i: nat, luck: Luck)
    | Destroy(i: nat)

  ghost predicate PoolKept(s: Pool, original: Bytes) {
    && |s.region.bytes| == |original| && (!s.region.moved ==> s.region.bytes == original)
    && AllInSpan(s.region, s.live) && |s.failed| == |s.live|
    && s.shared.refs == AliasCount(s.live) && Released(s.shared)
    && forall i :: 0 <= i < |s.live| && !s.failed[i] ==> Good(s.live[i], original)
  }

  lemma AliasOne(b: Bucket)
    ensures AliasCount([b]) == Ref(b)
  {
    assert [b][1..] == [];
  }

  /** One bucket over the whole span, as it is created. */
  function Created(region: Region): (s: Pool)
    requires !region.moved
    ensures PoolKept(s, region.bytes)
  {
    var b := Bucket(AliasKind, 0, |region.bytes|);
    AliasOne(b);
    Pool(region, [b], [false], Shared(1, 0))
  }

  function Without<T>(s: seq<T>, i: nat): seq<T>
    requires i < |s|
  {
    s[..i] + s[i + 1..]
  }

  predicate Failed(source: Source) {
    source == NoData(Failure)
  }

  function ReadAt(s: Pool, p: Policy, i: nat, luck: Luck): ReadResult
    requires i < |s.live| && AllInSpan(s.region, s.live) && s.shared.refs == AliasCount(s.live)
  {
    AliasAt(s.live, i, s.live[i]);
    AfterRead(s.region, p, s.live[i], s.shared, luck)
  }

  /** What is not possible changes nothing: a poisoned bucket is neither split nor copied. */
  function DoBucketAct(s: Pool, p: Policy, act: BucketAct): Pool
    requires AllInSpan(s.region, s.live) && |s.failed| == |s.live| && s.shared.refs == AliasCount(s.live)
  {
    if act.Pass? then s.(region := HappenAll(s.region, p, act.events))
    else if act.i >= |s.live| then s
    else
      var b, sh := s.live[act.i], s.shared;
      AliasAt(s.live, act.i, b);
      match act
      case Split(i, point) =>
        if b.kind.TornKind? || point > b.length then s
        else
          var live := s.live[i := FrontOf(b, point)] + [BackOf(b, point)];
          Pool(s.region, live, s.failed + [s.failed[i]], AfterShare(b, sh))
      case Copy(i) =>
        if b.kind.TornKind? then s
        else Pool(s.region, s.live + [b], s.failed + [s.failed[i]], AfterShare(b, sh))
      case Read(i, luck) =>
        var d := ReadAt(s, p, i, luck);
        Pool(d.r, s.live[i := d.b], s.failed[i := s.failed[i] || Failed(d.source)], d.sh)
      case Setaside(i, luck) =>
        var m := AfterSetaside(s.region, p, b, sh, luck);
        Pool(m.r, s.live[i := m.b], s.failed, m.sh)
      case Destroy(i) =>
        Pool(s.region, Without(s.live, i), Without(s.failed, i), AfterDestroy(b, sh))
  }

  // ----- What each act keeps -----

  lemma SplitInPool(s: Pool, p: Policy, i: nat, point: nat, original: Bytes)
    requires PoolKept(s, original)
    ensures PoolKept(DoBucketAct(s, p, Split(i, point)), original)
  {
    if i < |s.live| && point <= s.live[i].length {
      var b := s.live[i];
      BackGood(b, point, original);
      AliasAt(s.live, i, FrontOf(b, point));
      AliasAppend(s.live[i := FrontOf(b, point)], [BackOf(b, point)]);
      AliasOne(BackOf(b, point));
    }
  }

  lemma CopyInPool(s: Pool, p: Policy, i: nat, original: Bytes)
    requires PoolKept(s, original)
    ensures PoolKept(DoBucketAct(s, p, Copy(i)), original)
  {
    if i < |s.live| {
      AliasAt(s.live, i, s.live[i]);
      AliasAppend(s.live, [s.live[i]]);
      AliasOne(s.live[i]);
    }
  }

  /** A read leaves a good bucket good unless it reports a failure. */
  lemma ReadLeavesGood(r: Region, p: Policy, b: Bucket, sh: Shared, luck: Luck, original: Bytes)
    requires |r.bytes| == |original| && (!r.moved ==> r.bytes == original)
    requires InSpan(r, b) && (b.kind.AliasKind? ==> sh.refs > 0)
    ensures var d := AfterRead(r, p, b, sh, luck);
            Good(b, original) && !Failed(d.source) ==> Good(d.b, original)
  {
    if b.kind.AliasKind? {
      CopyOutKeeps(RenewLeaseStrict(r, p).r, p, b, sh, luck);
    }
  }

  lemma ReadInPool(s: Pool, p: Policy, i: nat, luck: Luck, original: Bytes)
    requires PoolKept(s, original)
    ensures PoolKept(DoBucketAct(s, p, Read(i, luck)), original)
  {
    if i < |s.live| {
      var b := s.live[i];
      AliasAt(s.live, i, b);
      ReadKeeps(s.region, p, b, s.shared, luck);
      ReadLeavesGood(s.region, p, b, s.shared, luck, original);
      AliasAt(s.live, i, AfterRead(s.region, p, b, s.shared, luck).b);
    }
  }

  lemma SetasideInPool(s: Pool, p: Policy, i: nat, luck: Luck, original: Bytes)
    requires PoolKept(s, original)
    ensures PoolKept(DoBucketAct(s, p, Setaside(i, luck)), original)
  {
    if i < |s.live| {
      var b := s.live[i];
      AliasAt(s.live, i, b);
      SetasideKeeps(s.region, p, b, s.shared, luck, original);
      AliasAt(s.live, i, AfterSetaside(s.region, p, b, s.shared, luck).b);
    }
  }

  lemma DestroyInPool(s: Pool, p: Policy, i: nat, original: Bytes)
    requires PoolKept(s, original)
    ensures PoolKept(DoBucketAct(s, p, Destroy(i)), original)
  {
    if i < |s.live| {
      AliasAt(s.live, i, s.live[i]);
    }
  }

  lemma BucketActKeeps(s: Pool, p: Policy, act: BucketAct, original: Bytes)
    requires PoolKept(s, original)
    ensures PoolKept(DoBucketAct(s, p, act), original)
  {
    match act
    case Pass(events) => IntactMeansUnchanged(s.region, p, events);
    case Split(i, point) => SplitInPool(s, p, i, point, original);
    case Copy(i) => CopyInPool(s, p, i, original);
    case Read(i, luck) => ReadInPool(s, p, i, luck, original);
    case Setaside(i, luck) => SetasideInPool(s, p, i, luck, original);
    case Destroy(i) => DestroyInPool(s, p, i, original);
  }

  // ----- Whole runs -----

  function DoBucketActs(s: Pool, p: Policy, acts: seq<BucketAct>, original: Bytes): (t: Pool)
    requires PoolKept(s, original)
    ensures PoolKept(t, original)
    decreases |acts|
  {
    if acts == [] then s
    else
      BucketActKeeps(s, p, acts[0], original);
      DoBucketActs(DoBucketAct(s, p, acts[0]), p, acts[1..], original)
  }

  lemma NoAlias(buckets: seq<Bucket>)
    ensures (forall i :: 0 <= i < |buckets| ==> !buckets[i].kind.AliasKind?) <==> AliasCount(buckets) == 0
  {
    if i :| 0 <= i < |buckets| && buckets[i].kind.AliasKind? {
      AliasAt(buckets, i, buckets[i]);
    } else {
      NoneCounted(buckets);
    }
  }

  lemma {:induction false} NoneCounted(buckets: seq<Bucket>)
    requires forall i :: 0 <= i < |buckets| ==> !buckets[i].kind.AliasKind?
    ensures AliasCount(buckets) == 0
    decreases |buckets|
  {
    if buckets != [] {
      NoneCounted(buckets[1..]);
    }
  }

  /** Whatever is done with the buckets, the shared count is the number of those that alias;
      the pin is released once, and that is when none does. */
  lemma PinOutlivesAliases(region: Region, p: Policy, acts: seq<BucketAct>)
    requires !region.moved
    ensures var s := DoBucketActs(Created(region), p, acts, region.bytes);
            && s.shared.refs == AliasCount(s.live) && s.shared.releases <= 1
            && (s.shared.releases == 1 <==> forall i :: 0 <= i < |s.live| ==> !s.live[i].kind.AliasKind?)
  {
    NoAlias(DoBucketActs(Created(region), p, acts, region.bytes).live);
  }

  /** Siblings stand each for itself: whatever became of the others, a read that succeeds
      of a bucket with no failed read behind it gives its window of the original, privately
      or shielded from wraps. */
  lemma SiblingsReadOriginal(region: Region, p: Policy, acts: seq<BucketAct>, i: nat, luck: Luck)
    requires !region.moved
    requires var s := DoBucketActs(Created(region), p, acts, region.bytes); i < |s.live| && !s.failed[i]
    ensures var s := DoBucketActs(Created(region), p, acts, region.bytes);
            var d := ReadAt(s, p, i, luck);
            !d.source.NoData? ==>
              && StandFor(CellsOf(d.source), region.bytes, s.live[i].start)
              && |CellsOf(d.source)| == s.live[i].length
              && (d.source.Aliased? ==>
                    Shielded(d.r, s.region.now + Min(READ_MARGIN, p.lease)) && d.r.bytes == region.bytes)
  {
    var s := DoBucketActs(Created(region), p, acts, region.bytes);
    AliasAt(s.live, i, s.live[i]);
    ReadGivesOriginal(s.region, p, s.live[i], s.shared, luck, region.bytes,
                      s.region.now + Min(READ_MARGIN, p.lease));
  }
}
