/** Buckets that alias a borrowed region, morph in place, and share one pin on it. */
module MmapBuckets {
  import opened ByteStreams
  import opened MappedRegions

  datatype Kind = AliasKind | HeapKind(bytes: Bytes) | TornKind

  /** `start` and `length` say which window of the borrowed span the bucket stands for. */
  datatype Bucket = Bucket(kind: Kind, start: nat, length: nat)

  /** The private data shared by buckets that alias one span: its references, and how
      often its pin was released. */
  datatype Shared = Shared(refs: nat, releases: nat)

  datatype Status = Success | OutOfMemory | Failure

  function DropRef(sh: Shared): Shared
    requires sh.refs > 0
  {
    Shared(sh.refs - 1, if sh.refs == 1 then sh.releases + 1 else sh.releases)
  }

  datatype Morphed = Morphed(r: Region, b: Bucket, sh: Shared, status: Status)

  /** What the environment does to one operation that may copy: whether memory can be
      had, and what happens before each byte is copied. */
  datatype Luck = Luck(allocates: bool, weather: nat -> seq<Event>)

  predicate InSpan(r: Region, b: Bucket) {
    b.start + b.length <= |r.bytes|
  }

  function AfterCopyOut(r: Region, p: Policy, b: Bucket, sh: Shared, luck: Luck): Morphed
    requires b.kind.AliasKind? && InSpan(r, b) && sh.refs > 0
  {
    if !luck.allocates then Morphed(r, b, sh, OutOfMemory)
    else
      var c := CopyBytes(r, p, b.start, b.length, luck.weather);
      var v := RenewLeaseStrict(c.r, p);
      Morphed(v.r, b.(kind := HeapKind(c.bytes)), DropRef(sh), if v.verdict == Torn then Failure else Success)
  }

  // What a read returns.
  datatype Source = NoData(status: Status) | Aliased(at: nat, n: nat) | Owned(bytes: Bytes)

  datatype ReadResult = ReadResult(r: Region, b: Bucket, sh: Shared, source: Source)

  function AfterRead(r: Region, p: Policy, b: Bucket, sh: Shared, luck: Luck): ReadResult
    requires InSpan(r, b) && (b.kind.AliasKind? ==> sh.refs > 0)
  {
    match b.kind
    case HeapKind(bytes) => ReadResult(r, b, sh, Owned(bytes))
    case TornKind => ReadResult(r, b, sh, NoData(Failure))
    case AliasKind =>
      var v := RenewLeaseStrict(r, p);
      if v.verdict == Torn then ReadResult(v.r, b, sh, NoData(Failure))
      else if v.verdict != Ok || !ForcedWrapBeyond(v.r, READ_MARGIN) then
        var m := AfterCopyOut(v.r, p, b, sh, luck);
        ReadResult(m.r, m.b, m.sh, if m.status == Success then Owned(m.b.kind.bytes) else NoData(m.status))
      else ReadResult(v.r, b, sh, Aliased(b.start, b.length))
  }

  /** Releases whatever the bucket holds of the shared data. */
  function AfterDestroy(b: Bucket, sh: Shared): Shared
    requires b.kind.AliasKind? ==> sh.refs > 0
  {
    if b.kind.AliasKind? then DropRef(sh) else sh
  }

  /** Setaside never reports an error: a copy-out that fails poisons the bucket. */
  function AfterSetaside(r: Region, p: Policy, b: Bucket, sh: Shared, luck: Luck): Morphed
    requires InSpan(r, b) && (b.kind.AliasKind? ==> sh.refs > 0)
  {
    if !b.kind.AliasKind? then Morphed(r, b, sh, Success)
    else
      var m := AfterCopyOut(r, p, b, sh, luck);
      if m.status == Success then m
      else Morphed(m.r, m.b.(kind := TornKind), AfterDestroy(m.b, m.sh), Success)
  }

  // ----- When each outcome comes -----

  /** A read must copy: a wrap is declared, or one may be forced within the margin. */
  predicate CopyDue(r: Region, b: Bucket) {
    b.kind.AliasKind? && !r.moved && (r.intent || !r.deadline.LaterThan(r.now + READ_MARGIN))
  }

  /** The region has moved by the end of a copy of the bucket's window. */
  predicate MovesDuring(r: Region, p: Policy, b: Bucket, luck: Luck)
    requires InSpan(r, b)
  {
    CopyBytes(r, p, b.start, b.length, luck.weather).r.moved
  }

  /** Exactly when a read aliases, hands out bytes of its own, wants memory, or fails. */
  lemma ReadOutcome(r: Region, p: Policy, b: Bucket, sh: Shared, luck: Luck)
    requires InSpan(r, b) && (b.kind.AliasKind? ==> sh.refs > 0)
    ensures var source := AfterRead(r, p, b, sh, luck).source;
            var due := CopyDue(r, b);
            var torn := MovesDuring(RenewLeaseStrict(r, p).r, p, b, luck);
            && (source == Aliased(b.start, b.length) <==>
                  b.kind.AliasKind? && !r.moved && !r.intent && r.deadline.LaterThan(r.now + READ_MARGIN))
            && (source.Aliased? ==> source == Aliased(b.start, b.length))
            && (source.Owned? <==> b.kind.HeapKind? || (due && luck.allocates && !torn))
            && (source == NoData(OutOfMemory) <==> due && !luck.allocates)
            && (source == NoData(Failure) <==>
                  b.kind.TornKind? || (b.kind.AliasKind? && r.moved) || (due && luck.allocates && torn))
  {
    if CopyDue(r, b) && luck.allocates {
      CopyThenVerify(RenewLeaseStrict(r, p).r, p, b.start, b.length, luck.weather);
    }
  }

  /** A bucket set aside is poisoned exactly when it was, or when it aliased and memory was
      wanting or the region moved; otherwise it has bytes of its own. */
  lemma SetasideOutcome(r: Region, p: Policy, b: Bucket, sh: Shared, luck: Luck)
    requires InSpan(r, b) && (b.kind.AliasKind? ==> sh.refs > 0)
    ensures var kind := AfterSetaside(r, p, b, sh, luck).b.kind;
            && (kind.TornKind? <==>
                  b.kind.TornKind? || (b.kind.AliasKind? && (!luck.allocates || MovesDuring(r, p, b, luck))))
            && !kind.AliasKind? && (!b.kind.AliasKind? ==> kind == b.kind)
  {
    if b.kind.AliasKind? && luck.allocates {
      CopyThenVerify(r, p, b.start, b.length, luck.weather);
    }
  }

  // ----- Split and copy siblings -----

  function FrontOf(b: Bucket, point: nat): Bucket {
    var own := b.kind.HeapKind? && point <= |b.kind.bytes|;
    Bucket(if own then HeapKind(b.kind.bytes[..point]) else b.kind, b.start, point)
  }

  function BackOf(b: Bucket, point: nat): Bucket
    requires point <= b.length
  {
    var own := b.kind.HeapKind? && point <= |b.kind.bytes|;
    Bucket(if own then HeapKind(b.kind.bytes[point..]) else b.kind, b.start + point, b.length - point)
  }

  /** A sibling that aliases takes a reference. */
  function AfterShare(b: Bucket, sh: Shared): Shared {
    if b.kind.AliasKind? then sh.(refs := sh.refs + 1) else sh
  }

  // ----- The classes -----

  class CacheRegion {
    const policy: Policy
    var state: Region

    constructor (policy: Policy, state: Region)
      ensures this.policy == policy && this.state == state
    {
      this.policy, this.state := policy, state;
    }

    method Renew() returns (verdict: LeaseRenewal)
      modifies this
      ensures Renewed(state, verdict) == RenewLeaseStrict(old(state), policy)
    {
      var v := RenewLeaseStrict(state, policy);
      state := v.r;
      return v.verdict;
    }

    method Elapse(events: seq<Event>)
      modifies this
      ensures state == HappenAll(old(state), policy, events) && |state.bytes| == |old(state).bytes|
    {
      IntactMeansUnchanged(state, policy, events);
      state := HappenAll(state, policy, events);
    }
  }

  /** Shared by the buckets over one span, and freed with its pin by the last of them. */
  class MmapBucketData {
    var refcount: nat
    var releases: nat

    ghost function View(): Shared
      reads this
    {
      Shared(refcount, releases)
    }

    constructor ()
      ensures View() == Shared(1, 0)
    {
      refcount, releases := 1, 0;
    }

    method Destroy()
      requires refcount > 0
      modifies this
      ensures View() == DropRef(old(View()))
    {
      refcount := refcount - 1;
      if refcount == 0 {
        releases := releases + 1;
      }
    }
  }

  class AprBucket {
    const region: CacheRegion
    const data: MmapBucketData
    var kind: Kind
    var start: nat
    var length: nat

    ghost function View(): Bucket
      reads this
    {
      Bucket(kind, start, length)
    }

    ghost predicate Valid()
      reads this, region, data
    {
      InSpan(region.state, View()) && (kind.AliasKind? ==> data.refcount > 0)
    }

    /** A bucket over a whole span, with the first reference to new shared data. */
    constructor (region: CacheRegion)
      ensures Valid() && View() == Bucket(AliasKind, 0, |region.state.bytes|)
      ensures this.region == region && fresh(data) && data.View() == Shared(1, 0)
    {
      this.region := region;
      data := new MmapBucketData();
      kind, start, length := AliasKind, 0, |region.state.bytes|;
    }

    /** Another bucket over the same data, which counts it. */
    constructor Sibling(region: CacheRegion, data: MmapBucketData, kind: Kind, start: nat, length: nat)
      modifies data
      ensures this.region == region && this.data == data && View() == Bucket(kind, start, length)
      ensures data.View() == AfterShare(View(), old(data.View()))
    {
      this.region, this.data, this.kind, this.start, this.length := region, data, kind, start, length;
      new;
      if kind.AliasKind? {
        data.refcount := data.refcount + 1;
      }
    }

    /** Cuts the window in two; a poisoned bucket cannot be cut. */
    method Split(point: nat) returns (rest: AprBucket?)
      requires Valid() && point <= length
      modifies data, this
      ensures rest == null <==> old(kind).TornKind?
      ensures old(kind).TornKind? ==> View() == old(View()) && data.View() == old(data.View())
      ensures rest != null ==>
                && fresh(rest) && rest.data == data && rest.region == region
                && View() == FrontOf(old(View()), point) && rest.View() == BackOf(old(View()), point)
                && data.View() == AfterShare(old(View()), old(data.View()))
    {
      if kind.TornKind? {
        return null;
      }
      var back := BackOf(Bucket(kind, start, length), point);
      rest := new AprBucket.Sibling(region, data, back.kind, back.start, back.length);
      kind, length := FrontOf(Bucket(kind, start, length), point).kind, point;
    }

    /** Another bucket over the same window; a poisoned bucket cannot be copied. */
    method Copy() returns (copy: AprBucket?)
      requires Valid()
      modifies data
      ensures copy == null <==> kind.TornKind?
      ensures copy == null ==> data.View() == old(data.View())
      ensures copy != null ==>
                && fresh(copy) && copy.data == data && copy.region == region && copy.View() == View()
                && data.View() == AfterShare(View(), old(data.View()))
    {
      if kind.TornKind? {
        return null;
      }
      copy := new AprBucket.Sibling(region, data, kind, start, length);
    }

    ghost predicate Became(m: Morphed)
      reads this, region, data
    {
      m.r == region.state && m.b == View() && m.sh == data.View()
    }

    method HeapMake(luck: Luck) returns (made: bool)
      requires Valid() && kind.AliasKind?
      modifies region, this`kind
      ensures made == luck.allocates
      ensures !made ==> region.state == old(region.state) && kind == old(kind)
      ensures made ==>
                var c := CopyBytes(old(region.state), region.policy, start, length, luck.weather);
                region.state == c.r && kind == HeapKind(c.bytes)
    {
      if !luck.allocates {
        return false;
      }
      var bytes: Bytes := [];
      var i := 0;
      while i < length
        invariant 0 <= i <= length && kind.AliasKind?
        invariant Copied(region.state, bytes) == CopyBytes(old(region.state), region.policy, start, i, luck.weather)
      {
        region.Elapse(luck.weather(i));
        bytes := bytes + [region.state.bytes[start + i]];
        i := i + 1;
      }
      kind := HeapKind(bytes);
      return true;
    }

    method CopyOut(luck: Luck) returns (status: Status)
      requires Valid() && kind.AliasKind?
      modifies region, data, this`kind
      ensures var m := AfterCopyOut(old(region.state), region.policy, old(View()), old(data.View()), luck);
              Became(m) && status == m.status
    {
      var made := HeapMake(luck);
      if !made {
        return OutOfMemory;
      }
      // Verify after the copy, through the pin still held.
      var verdict := region.Renew();
      data.Destroy();
      return if verdict == Torn then Failure else Success;
    }

    method Read(luck: Luck) returns (source: Source)
      requires Valid()
      modifies region, data, this`kind
      ensures ReadResult(region.state, View(), data.View(), source)
           == AfterRead(old(region.state), region.policy, old(View()), old(data.View()), luck)
    {
      match kind {
        case HeapKind(bytes) => return Owned(bytes);
        case TornKind => return NoData(Failure);
        case AliasKind =>
          var verdict := region.Renew();
          if verdict == Torn {
            return NoData(Failure);
          }
          if verdict != Ok || !ForcedWrapBeyond(region.state, READ_MARGIN) {
            var status := CopyOut(luck);
            if status != Success {
              return NoData(status);
            }
            return Owned(kind.bytes);
          }
          return Aliased(start, length);
      }
    }

    /** Releases what the bucket still holds and makes every later read fail. */
    method Poison()
      requires kind.AliasKind? ==> data.refcount > 0
      modifies data, this`kind
      ensures kind == TornKind && data.View() == AfterDestroy(old(View()), old(data.View()))
    {
      if kind.AliasKind? {
        data.Destroy();
      }
      kind := TornKind;
    }

    method Setaside(luck: Luck)
      requires Valid()
      modifies region, data, this`kind
      ensures Became(AfterSetaside(old(region.state), region.policy, old(View()), old(data.View()), luck))
    {
      if kind.AliasKind? {
        var status := CopyOut(luck);
        if status != Success {
          Poison();
        }
      }
    }
  }
}
