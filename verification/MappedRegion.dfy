/** A borrowed region of cache memory as its borrower sees it: the read lease, the
    writer that may wrap over it, and the two questions the borrower may ask. The class
    behind them is not part of the repository; its steps are those its comments name. */
module MappedRegions {
  import opened ByteStreams

  // Nanoseconds that must be left before a forced wrap for a read to keep aliasing,
  // and for a serve to be admitted for aliasing.
  const READ_MARGIN: nat := 1_000_000_000
  const EMIT_MARGIN: nat := 2 * READ_MARGIN

  // How long a renewal leases for, and how long a wrap may be deferred before it is
  // forced.
  datatype Policy = Policy(lease: nat, ceiling: nat)

  datatype Deadline = NoDeadline | ForcedAt(at: nat) {
    predicate LaterThan(t: nat) {
      NoDeadline? || at > t
    }
  }

  // A writer's intent to wrap is seen by renewals; `moved` says that the epoch moved.
  datatype Region = Region(now: nat, leaseUntil: nat, intent: bool, deadline: Deadline, moved: bool, bytes: Bytes)

  datatype LeaseRenewal = Ok | CopyNow | Torn

  datatype Renewed = Renewed(r: Region, verdict: LeaseRenewal)

  /** Revalidates the borrow and, if no wrap is in flight, stamps a fresh lease. */
  function RenewLeaseStrict(r: Region, p: Policy): Renewed {
    if r.moved then Renewed(r, Torn)
    else if r.intent then Renewed(r, CopyNow)
    else Renewed(r.(leaseUntil := Max(r.leaseUntil, r.now + p.lease)), Ok)
  }

  /** NsUntilForcedWrap() > margin. */
  predicate ForcedWrapBeyond(r: Region, margin: nat) {
    r.deadline.LaterThan(r.now + margin)
  }

  // What the clock, the writers and other readers do.
  datatype Event =
    | Tick(ns: nat)
    | DeclareWrap
    | DeferWrap
    | CommitWrap
    | ForceWrap
    | Overwrite(at: nat, byte: Byte)
    | OtherLease(until: nat)

  function Wrapped(r: Region): Region {
    r.(intent := false, deadline := NoDeadline, moved := true)
  }

  /** A normal wrap waits for the lease and is deferred while it lives; a forced one
      waits for its deadline alone; bytes change only once the epoch has moved. An event
      that cannot happen changes nothing. */
  function Happen(r: Region, p: Policy, e: Event): Region {
    match e
    case Tick(ns) => r.(now := r.now + ns)
    case DeclareWrap => r.(intent := true)
    case DeferWrap =>
      if r.now >= r.leaseUntil then r
      else r.(intent := false, deadline := if r.deadline.NoDeadline? then ForcedAt(r.now + p.ceiling) else r.deadline)
    case CommitWrap => if r.intent && r.now >= r.leaseUntil then Wrapped(r) else r
    case ForceWrap => if !r.deadline.LaterThan(r.now) then Wrapped(r) else r
    case Overwrite(at, byte) => if r.moved && at < |r.bytes| then r.(bytes := r.bytes[at := byte]) else r
    case OtherLease(until) => r.(leaseUntil := Max(r.leaseUntil, until))
  }

  function HappenAll(r: Region, p: Policy, events: seq<Event>): (q: Region)
    decreases |events|
  {
    if events == [] then r else HappenAll(Happen(r, p, events[0]), p, events[1..])
  }

  /** Time goes on, a torn borrow stays torn, and an intact one has its bytes. */
  lemma {:induction false} IntactMeansUnchanged(r: Region, p: Policy, events: seq<Event>)
    ensures var q := HappenAll(r, p, events);
            && q.now >= r.now && |q.bytes| == |r.bytes|
            && (r.moved ==> q.moved)
            && (!q.moved ==> q.bytes == r.bytes)
    decreases |events|
  {
    if events != [] {
      IntactMeansUnchanged(Happen(r, p, events[0]), p, events[1..]);
    }
  }

  // ----- A burst of sends after a read -----

  /** No wrap can commit before `until`. */
  predicate Shielded(r: Region, until: nat) {
    !r.moved && r.leaseUntil >= until && (r.deadline.NoDeadline? || r.deadline.at >= until)
  }

  lemma RenewalShields(r: Region, p: Policy, until: nat)
    requires RenewLeaseStrict(r, p).verdict == Ok && ForcedWrapBeyond(r, READ_MARGIN)
    requires until <= r.now + READ_MARGIN && until <= r.now + p.lease
    ensures Shielded(RenewLeaseStrict(r, p).r, until)
  {
  }

  /** Whatever happens meanwhile, a shield holds until its time is over. */
  lemma {:induction false} ShieldHolds(r: Region, p: Policy, events: seq<Event>, until: nat)
    requires Shielded(r, until) && HappenAll(r, p, events).now < until && until <= r.now + p.ceiling
    ensures Shielded(HappenAll(r, p, events), until) && HappenAll(r, p, events).bytes == r.bytes
    decreases |events|
  {
    if events != [] {
      var q := Happen(r, p, events[0]);
      IntactMeansUnchanged(q, p, events[1..]);
      ShieldHolds(q, p, events[1..], until);
    }
  }

  /** After a renewal that lets a read keep aliasing, whatever happens, no wrap commits and
      no byte changes for a read margin or a lease, whichever is shorter. */
  lemma AliasedBytesHold(r: Region, p: Policy, events: seq<Event>)
    requires RenewLeaseStrict(r, p).verdict == Ok && ForcedWrapBeyond(r, READ_MARGIN) && p.ceiling >= READ_MARGIN
    requires HappenAll(RenewLeaseStrict(r, p).r, p, events).now < r.now + Min(READ_MARGIN, p.lease)
    ensures var q := HappenAll(RenewLeaseStrict(r, p).r, p, events);
            !q.moved && q.bytes == r.bytes
  {
    var until := r.now + Min(READ_MARGIN, p.lease);
    RenewalShields(r, p, until);
    ShieldHolds(RenewLeaseStrict(r, p).r, p, events, until);
  }

  // ----- The margins -----

  /** A serve admitted with more than the emit margin to go is not de-aliased by a first
      read that renews well less than the difference of the margins later. */
  lemma AdmittedThenAliased(r: Region, p: Policy, events: seq<Event>)
    requires RenewLeaseStrict(r, p).verdict == Ok && ForcedWrapBeyond(r, EMIT_MARGIN)
    requires p.ceiling >= EMIT_MARGIN
    requires var q := HappenAll(RenewLeaseStrict(r, p).r, p, events);
             q.now < r.now + (EMIT_MARGIN - READ_MARGIN) && RenewLeaseStrict(q, p).verdict == Ok
    ensures ForcedWrapBeyond(HappenAll(RenewLeaseStrict(r, p).r, p, events), READ_MARGIN)
  {
    DeadlineStaysFar(RenewLeaseStrict(r, p).r, p, events, r.now + EMIT_MARGIN);
  }

  lemma {:induction false} DeadlineStaysFar(r: Region, p: Policy, events: seq<Event>, until: nat)
    requires r.deadline.NoDeadline? || r.deadline.at >= until
    requires until <= r.now + p.ceiling
    ensures var q := HappenAll(r, p, events); q.deadline.NoDeadline? || q.deadline.at >= until
    decreases |events|
  {
    if events != [] {
      DeadlineStaysFar(Happen(r, p, events[0]), p, events[1..], until);
    }
  }

  /** A shorter emit margin than that would not do. */
  lemma EmitMarginNeeded(p: Policy, margin: nat)
    requires READ_MARGIN <= margin < EMIT_MARGIN - 1
    ensures exists r: Region, ns: nat ::
              && RenewLeaseStrict(r, p).verdict == Ok && ForcedWrapBeyond(r, margin) && ns < EMIT_MARGIN - READ_MARGIN
              && RenewLeaseStrict(HappenAll(RenewLeaseStrict(r, p).r, p, [Tick(ns)]), p).verdict == Ok
              && !ForcedWrapBeyond(HappenAll(RenewLeaseStrict(r, p).r, p, [Tick(ns)]), READ_MARGIN)
  {
    var r := Region(0, 0, false, ForcedAt(margin + 1), false, []);
    var ns := margin + 1 - READ_MARGIN;
    var s := RenewLeaseStrict(r, p).r;
    var q := s.(now := ns);
    assert [Tick(ns)][1..] == [] && Happen(s, p, Tick(ns)) == q;
    assert HappenAll(s, p, [Tick(ns)]) == HappenAll(q, p, []) == q;
  }

  // ----- Copying -----

  /** A copy of `n` bytes from `from`, byte by byte, with `weather(i)` happening before
      byte i is read. */
  datatype Copied = Copied(r: Region, bytes: Bytes)

  function CopyBytes(r: Region, p: Policy, from: nat, n: nat, weather: nat -> seq<Event>): (c: Copied)
    requires from + n <= |r.bytes|
    ensures |c.bytes| == n && |c.r.bytes| == |r.bytes|
  {
    if n == 0 then Copied(r, [])
    else
      var c := CopyBytes(r, p, from, n - 1, weather);
      IntactMeansUnchanged(c.r, p, weather(n - 1));
      var q := HappenAll(c.r, p, weather(n - 1));
      Copied(q, c.bytes + [q.bytes[from + n - 1]])
  }

  /** Copy, then verify: if the borrow is not torn after the copy, no wrap committed
      before it or during it, and every byte copied is the one borrowed. */
  lemma {:induction false} CopyThenVerify(r: Region, p: Policy, from: nat, n: nat, weather: nat -> seq<Event>)
    requires from + n <= |r.bytes|
    ensures var c := CopyBytes(r, p, from, n, weather);
            && (r.moved ==> c.r.moved) && c.r.now >= r.now
            && (!c.r.moved ==> c.bytes == r.bytes[from..from + n] && c.r.bytes == r.bytes)
  {
    if n > 0 {
      CopyThenVerify(r, p, from, n - 1, weather);
      var c := CopyBytes(r, p, from, n - 1, weather);
      IntactMeansUnchanged(c.r, p, weather(n - 1));
      assert r.bytes[from..from + n] == r.bytes[from..from + n - 1] + [r.bytes[from + n - 1]];
    }
  }

  /** CopyMappedVerified, of a whole span. */
  datatype Verified = Verified(bytes: Bytes, intact: bool)

  function CopyVerified(r: Region, p: Policy, weather: nat -> seq<Event>): Verified {
    var c := CopyBytes(r, p, 0, |r.bytes|, weather);
    Verified(c.bytes, RenewLeaseStrict(c.r, p).verdict != Torn)
  }

  /** Checking before the copy proves nothing: a wrap can commit during it. */
  lemma VerifyThenCopyFails(p: Policy)
    requires p.ceiling > 0
    ensures exists r: Region, weather: nat -> seq<Event> ::
              && |r.bytes| == 1 && RenewLeaseStrict(r, p).verdict == Ok
              && CopyBytes(RenewLeaseStrict(r, p).r, p, 0, 1, weather).bytes != r.bytes
  {
    var r := Region(0, 0, false, ForcedAt(0), false, [0]);
    var weather: nat -> seq<Event> := i => [ForceWrap, Overwrite(0, 1)];
    var s := RenewLeaseStrict(r, p).r;
    assert [ForceWrap, Overwrite(0, 1)][1..] == [Overwrite(0, 1)] && [Overwrite(0, 1)][1..] == [];
    var t := Happen(s, p, ForceWrap);
    assert HappenAll(s, p, weather(0)) == HappenAll(t, p, [Overwrite(0, 1)]) == Happen(t, p, Overwrite(0, 1));
    assert CopyBytes(s, p, 0, 0, weather) == Copied(s, []);
    assert CopyBytes(s, p, 0, 1, weather).bytes == [1];
    assert r.bytes == [0];
  }
}
