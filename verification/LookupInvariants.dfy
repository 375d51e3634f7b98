/** What every step of the protocol keeps on the collector's side. */
module LookupInvariants {
  import opened PropertyCollecting
  import opened FetchSteps

  /** The headers come once, only post-lookup tasks follow a connect, and nothing but the
      ends of lookups follows a detach. */
  ghost predicate InOrder(tasks: seq<LookupTask>) {
    forall i, j :: 0 <= i < j < |tasks| && tasks[j].Rank() > 0 ==> MayPrecede(tasks[i], tasks[j])
  }

  predicate MayPrecede(first: LookupTask, second: LookupTask) {
    && !first.Detach?
    && (first.Connect? ==> second.AddPostLookup?)
    && !(first.HeadersReady? && second.HeadersReady?)
  }

  ghost predicate DistinctLookups(tasks: seq<LookupTask>) {
    forall i, j :: 0 <= i < j < |tasks| && tasks[i].LookupDone? && tasks[j].LookupDone? ==> tasks[i].id != tasks[j].id
  }

  ghost predicate NoneAbove(tasks: seq<LookupTask>, rank: nat) {
    forall t :: t in tasks ==> t.Rank() <= rank
  }

  /** The post-lookup tasks still on the sequence, in order. */
  ghost function Offers(tasks: seq<LookupTask>): seq<nat> {
    if tasks == [] then []
    else (if tasks[0].AddPostLookup? then [tasks[0].id] else []) + Offers(tasks[1..])
  }

  lemma {:induction false} OffersPush(tasks: seq<LookupTask>, t: LookupTask)
    ensures Offers(tasks + [t]) == Offers(tasks) + if t.AddPostLookup? then [t.id] else []
  {
    var all := tasks + [t];
    if tasks == [] {
      assert all == [t] && all[1..] == [];
    } else {
      OffersPush(tasks[1..], t);
      assert all[0] == tasks[0] && all[1..] == tasks[1..] + [t];
    }
  }

  /** Each pending lookup is out in the cache or has its Done on the sequence. */
  ghost predicate Accounted(l: LookupSide) {
    && (forall id :: id in l.c.pending <==> id in l.lookups || LookupDone(id) in l.tasks)
    && (forall id :: id in l.lookups ==> LookupDone(id) !in l.tasks)
    && DistinctLookups(l.tasks)
  }

  /** Every task offered is run, cancelled, queued or on the sequence, exactly once and in
      the order offered. */
  ghost predicate Ledger(l: LookupSide) {
    && l.c.ran + l.c.cancelled + l.c.postLookup + Offers(l.tasks) == l.offered
    && (!l.c.stage.detached ==> l.c.cancelled == [])
  }

  ghost predicate Stages(l: LookupSide) {
    && (l.c.stage.headersOk ==> HeadersReady !in l.tasks)
    && (l.c.stage.connected ==> NoneAbove(l.tasks, 1))
    && (l.c.stage.detached ==> NoneAbove(l.tasks, 0))
    && !(l.c.stage.connected && l.c.stage.detached)
    && (l.c.stage.connected ==> l.c.stage.headersOk)
    && (Connect in l.tasks ==> l.c.stage.headersOk || HeadersReady in l.tasks)
    && (l.c.stage.done && l.c.stage.headersOk ==> l.c.postLookup == [])
    && (l.c.stage.detached ==> l.c.postLookup == [])
  }

  predicate LookupAfter(tasks: seq<LookupTask>, i: nat) {
    exists j :: i < j < |tasks| && tasks[j].LookupDone?
  }

  predicate ConnectBefore(tasks: seq<LookupTask>, i: nat) {
    exists k :: 0 <= k < i && k < |tasks| && tasks[k].Connect?
  }

  /** A task offered after the connect is followed by the end of a lookup, so it does not
      outlive the collector. */
  ghost predicate Followed(l: LookupSide) {
    forall i :: 0 <= i < |l.tasks| && l.tasks[i].AddPostLookup? ==>
      (l.c.stage.connected || ConnectBefore(l.tasks, i) ==> l.lookups != {} || LookupAfter(l.tasks, i))
  }

  ghost predicate Living(l: LookupSide) {
    && l.present && l.deletes == 0
    && (l.c.stage.done <==> l.c.pending == {})
    && !(l.c.stage.done && (l.c.stage.connected || l.c.stage.detached))
  }

  ghost predicate Gone(l: LookupSide) {
    && l.tasks == [] && l.lookups == {} && l.c.postLookup == []
    && (l.present ==> l.deletes == 1)
    && (!l.present ==> l.deletes == 0)
  }

  /** All but the ledger. */
  ghost predicate Orderly(l: LookupSide) {
    && InOrder(l.tasks) && Accounted(l) && Stages(l) && Followed(l)
    && l.completions <= l.deletes
    && (Living(l) || Gone(l))
  }

  ghost predicate LookupInv(l: LookupSide) {
    Orderly(l) && Ledger(l)
  }

  // ----- Posting -----

  lemma PushedInOrder(tasks: seq<LookupTask>, task: LookupTask)
    requires InOrder(tasks)
    requires task.Rank() > 0 ==> forall t :: t in tasks ==> MayPrecede(t, task)
    ensures InOrder(tasks + [task])
  {
    forall i | 0 <= i < |tasks|
      ensures task.Rank() > 0 ==> MayPrecede(tasks[i], task)
    {
      assert tasks[i] in tasks;
    }
  }

  /** Posting keeps tasks followed if the new one is, or is none of them. */
  lemma PushedFollowed(l: LookupSide, m: LookupSide, task: LookupTask)
    requires Followed(l) && m.tasks == l.tasks + [task] && m.c.stage.connected == l.c.stage.connected
    requires m.lookups == l.lookups || task.LookupDone?
    requires task.AddPostLookup? ==> m.lookups != {} || (!l.c.stage.connected && Connect !in l.tasks)
    ensures Followed(m)
  {
    forall i | 0 <= i < |m.tasks| && m.tasks[i].AddPostLookup? && (m.c.stage.connected || ConnectBefore(m.tasks, i))
      ensures m.lookups != {} || LookupAfter(m.tasks, i)
    {
      if k :| 0 <= k < i && m.tasks[k].Connect? {
        assert l.tasks[k] == m.tasks[k];
      }
      if i < |l.tasks| {
        assert l.tasks[i] == m.tasks[i];
        assert ConnectBefore(m.tasks, i) ==> ConnectBefore(l.tasks, i);
        if j :| i < j < |l.tasks| && l.tasks[j].LookupDone? {
          assert m.tasks[j].LookupDone?;
        }
        assert task.LookupDone? ==> m.tasks[|l.tasks|].LookupDone?;
      }
    }
  }

  lemma PushedDistinct(tasks: seq<LookupTask>, task: LookupTask)
    requires DistinctLookups(tasks) && (task.LookupDone? ==> task !in tasks)
    ensures DistinctLookups(tasks + [task])
    ensures forall t :: t in tasks + [task] <==> t in tasks || t == task
  {
  }

  lemma PostKeeps(l: LookupSide, task: LookupTask)
    requires LookupInv(l) && Living(l)
    requires task.HeadersReady? || task.Connect? || task.Detach?
    requires !l.c.stage.connected && !l.c.stage.detached && NoneAbove(l.tasks, 2)
    requires task.HeadersReady? ==> !l.c.stage.headersOk && HeadersReady !in l.tasks
    requires task.Connect? ==> l.c.stage.headersOk || HeadersReady in l.tasks
    ensures LookupInv(Post(l, task, true)) && Living(Post(l, task, true))
  {
    OffersPush(l.tasks, task);
    PushedInOrder(l.tasks, task);
    PushedDistinct(l.tasks, task);
    PushedFollowed(l, Post(l, task, true), task);
  }

  lemma OfferKeeps(l: LookupSide, id: nat)
    requires LookupInv(l) && Living(l) && !l.c.stage.detached && Detach !in l.tasks
    requires l.lookups != {} || (!l.c.stage.connected && Connect !in l.tasks)
    ensures LookupInv(Post(l, AddPostLookup(id), true).(offered := l.offered + [id]))
    ensures Living(Post(l, AddPostLookup(id), true).(offered := l.offered + [id]))
  {
    OffersPush(l.tasks, AddPostLookup(id));
    PushedInOrder(l.tasks, AddPostLookup(id));
    PushedDistinct(l.tasks, AddPostLookup(id));
    PushedFollowed(l, Post(l, AddPostLookup(id), true), AddPostLookup(id));
  }

  /** A lookup still out means the collector is alive, and stays alive while its Done is
      on the sequence. */
  lemma LookupEndsKeeps(l: LookupSide, id: nat)
    requires LookupInv(l) && id in l.lookups
    ensures Living(l)
    ensures LookupInv(Post(l, LookupDone(id), true).(lookups := l.lookups - {id}))
    ensures Living(Post(l, LookupDone(id), true).(lookups := l.lookups - {id}))
  {
    OffersPush(l.tasks, LookupDone(id));
    PushedInOrder(l.tasks, LookupDone(id));
    PushedDistinct(l.tasks, LookupDone(id));
    PushedFollowed(l, Post(l, LookupDone(id), true).(lookups := l.lookups - {id}), LookupDone(id));
  }

  // ----- Running -----

  /** What taking the first task off the sequence leaves. */
  lemma Popped(l: LookupSide)
    requires Orderly(l) && l.tasks != []
    ensures Living(l)
    ensures var t, rest := l.tasks[0], l.tasks[1..];
            && InOrder(rest) && DistinctLookups(rest)
            && (forall u :: u in l.tasks <==> u == t || u in rest)
            && (t.LookupDone? || t.HeadersReady? ==> t !in rest)
            && (t.Connect? ==> NoneAbove(rest, 1)) && (t.Detach? ==> NoneAbove(rest, 0))
            && Offers(l.tasks) == (if t.AddPostLookup? then [t.id] else []) + Offers(rest)
  {
    var t, rest := l.tasks[0], l.tasks[1..];
    assert l.tasks == [t] + rest;
    forall u | u in rest
      ensures t.LookupDone? ==> u != t
      ensures u.Rank() > 0 ==> MayPrecede(t, u)
    {
      var i :| 0 <= i < |rest| && rest[i] == u;
      assert l.tasks[i + 1] == u;
    }
  }

  lemma PoppedFollowed(l: LookupSide, m: LookupSide)
    requires Followed(l) && l.tasks != [] && m.tasks == l.tasks[1..] && m.lookups == l.lookups
    requires m.c.stage.connected ==> l.c.stage.connected || l.tasks[0].Connect?
    ensures Followed(m)
  {
    forall i | 0 <= i < |m.tasks| && m.tasks[i].AddPostLookup? && (m.c.stage.connected || ConnectBefore(m.tasks, i))
      ensures m.lookups != {} || LookupAfter(m.tasks, i)
    {
      assert l.tasks[i + 1] == m.tasks[i];
      if k :| 0 <= k < i && m.tasks[k].Connect? {
        assert l.tasks[k + 1].Connect?;
      }
      assert l.c.stage.connected || ConnectBefore(l.tasks, i + 1);
      if j :| i + 1 < j < |l.tasks| && l.tasks[j].LookupDone? {
        assert m.tasks[j - 1].LookupDone?;
      }
    }
  }

  /** What follows a connect on the sequence ends with a lookup. */
  lemma LookupAfterConnect(l: LookupSide)
    requires Orderly(l) && |l.tasks| > 1 && (l.c.stage.connected || l.tasks[0].Connect?)
    ensures l.lookups != {} || exists id :: LookupDone(id) in l.tasks[1..]
  {
    Popped(l);
    var rest := l.tasks[1..];
    assert rest[0] in rest && rest[0] == l.tasks[1];
    assert l.tasks[0].Connect? ==> ConnectBefore(l.tasks, 1);
    if rest[0].LookupDone? {
      assert LookupDone(rest[0].id) in rest;
    } else if j :| 1 < j < |l.tasks| && l.tasks[j].LookupDone? {
      assert l.tasks[j] == rest[j - 1] == LookupDone(l.tasks[j].id);
    }
  }

  /** When the last lookup is over nothing follows a connect. */
  lemma NothingAfterConnect(l: LookupSide, pending: set<nat>)
    requires Orderly(l) && l.tasks != [] && (l.c.stage.connected || l.tasks[0].Connect?)
    requires pending == {} && l.lookups <= pending
    requires forall id :: LookupDone(id) in l.tasks[1..] ==> id in pending
    ensures l.tasks[1..] == []
  {
    if |l.tasks| > 1 {
      LookupAfterConnect(l);
    }
  }

  lemma SomeTask(tasks: seq<LookupTask>)
    ensures tasks == [] || exists t :: t in tasks
  {
    if tasks != [] {
      assert tasks[0] in tasks;
    }
  }

  lemma NothingAfter(tasks: seq<LookupTask>, pending: set<nat>)
    requires NoneAbove(tasks, 0) && pending == {}
    requires forall id :: LookupDone(id) in tasks ==> id in pending
    ensures tasks == []
  {
    SomeTask(tasks);
  }

  /** Running what is queued, cancelling it, or queueing one more keeps the order. */
  lemma Reorder(ran: seq<nat>, cancelled: seq<nat>, queued: seq<nat>, rest: seq<nat>, id: nat)
    ensures cancelled == [] ==> ran + cancelled + queued + rest == (ran + queued) + cancelled + [] + rest
    ensures ran + cancelled + queued + rest == ran + (cancelled + queued) + [] + rest
    ensures ran + cancelled + queued + ([id] + rest) == ran + cancelled + (queued + [id]) + rest
    ensures ran + cancelled + queued + ([] + rest) == ran + cancelled + queued + rest
  {
  }

  /** A task that runs at once is the next in order. */
  lemma RunsNext(ran: seq<nat>, rest: seq<nat>, id: nat)
    ensures ran + [] + [] + ([id] + rest) == (ran + [id]) + [] + [] + rest
  {
  }

  lemma LedgerKeeps(l: LookupSide, pointedTo: bool)
    requires LookupInv(l) && l.tasks != []
    ensures Ledger(AfterTask(l, pointedTo))
  {
    Popped(l);
    assert l.tasks[0] in l.tasks;
    var t, rest := l.tasks[0], Offers(l.tasks[1..]);
    var id := if t.AddPostLookup? then t.id else 0;
    Reorder(l.c.ran, l.c.cancelled, l.c.postLookup, rest, id);
    RunsNext(l.c.ran, rest, id);
  }

  lemma LastDoneFinds(l: LookupSide)
    requires Orderly(l) && l.tasks != [] && l.tasks[0].LookupDone? && l.c.pending - {l.tasks[0].id} == {}
    ensures l.lookups == {} && (l.c.stage.connected || l.c.stage.detached ==> l.tasks[1..] == [])
  {
    Popped(l);
    if l.c.stage.connected {
      NothingAfterConnect(l, l.c.pending - {l.tasks[0].id});
    } else if l.c.stage.detached {
      NothingAfter(l.tasks[1..], l.c.pending - {l.tasks[0].id});
    }
  }

  lemma DoneKeeps(l: LookupSide, pointedTo: bool)
    requires Orderly(l) && l.tasks != [] && l.tasks[0].LookupDone?
    requires CompletesNext(l) ==> pointedTo
    ensures Orderly(AfterTask(l, pointedTo))
  {
    Popped(l);
    PoppedFollowed(l, AfterTask(l, pointedTo));
    if l.c.pending - {l.tasks[0].id} == {} {
      LastDoneFinds(l);
    }
  }

  lemma AddKeeps(l: LookupSide, pointedTo: bool)
    requires Orderly(l) && l.tasks != [] && l.tasks[0].AddPostLookup?
    ensures !l.c.stage.detached
    ensures Orderly(AfterTask(l, pointedTo)) && !CompletesNext(l)
  {
    Popped(l);
    PoppedFollowed(l, AfterTask(l, pointedTo));
    assert l.tasks[0] in l.tasks;
  }

  lemma HeadersKeep(l: LookupSide, pointedTo: bool)
    requires Orderly(l) && l.tasks != [] && l.tasks[0].HeadersReady?
    ensures Orderly(AfterTask(l, pointedTo)) && !CompletesNext(l)
  {
    Popped(l);
    PoppedFollowed(l, AfterTask(l, pointedTo));
    assert l.tasks[0] in l.tasks;
  }

  lemma ConnectFinds(l: LookupSide)
    requires Orderly(l) && l.tasks != [] && l.tasks[0].Connect?
    ensures Living(l) && !l.c.stage.connected && !l.c.stage.detached && l.c.stage.headersOk
    ensures NoneAbove(l.tasks[1..], 1) && (l.c.stage.done ==> l.tasks[1..] == [])
  {
    Popped(l);
    assert l.tasks[0] in l.tasks;
    if l.c.stage.done {
      NothingAfterConnect(l, l.c.pending);
    }
  }

  /** Connect comes once, after the headers and before any Detach; if it completes the
      fetch, it is the last task of a collector that no lookup will call. */
  lemma ConnectKeeps(l: LookupSide, pointedTo: bool)
    requires Orderly(l) && l.tasks != [] && l.tasks[0].Connect?
    requires CompletesNext(l) ==> pointedTo
    ensures !l.c.stage.connected && !l.c.stage.detached && l.c.stage.headersOk
    ensures Orderly(AfterTask(l, pointedTo))
    ensures if CompletesNext(l) then Gone(AfterTask(l, pointedTo)) else Living(AfterTask(l, pointedTo))
  {
    ConnectFinds(l);
    Popped(l);
    PoppedFollowed(l, AfterTask(l, pointedTo));
  }

  lemma DetachFinds(l: LookupSide)
    requires Orderly(l) && l.tasks != [] && l.tasks[0].Detach?
    ensures Living(l) && !l.c.stage.connected && !l.c.stage.detached
    ensures NoneAbove(l.tasks[1..], 0) && (l.c.stage.done ==> l.tasks[1..] == [])
  {
    Popped(l);
    assert l.tasks[0] in l.tasks;
    if l.c.stage.done {
      NothingAfter(l.tasks[1..], l.c.pending);
    }
  }

  lemma DetachKeeps(l: LookupSide, pointedTo: bool)
    requires Orderly(l) && l.tasks != [] && l.tasks[0].Detach?
    ensures !l.c.stage.detached
    ensures Orderly(AfterTask(l, pointedTo)) && !CompletesNext(l)
    ensures if l.c.stage.done then Gone(AfterTask(l, pointedTo)) else Living(AfterTask(l, pointedTo))
    ensures NoneAbove(l.tasks[1..], 0)
  {
    DetachFinds(l);
    Popped(l);
    PoppedFollowed(l, AfterTask(l, pointedTo));
  }

  lemma {:induction false} NoOffers(tasks: seq<LookupTask>)
    requires NoneAbove(tasks, 0)
    ensures Offers(tasks) == []
    decreases |tasks|
  {
    if tasks != [] {
      assert tasks[0] in tasks;
      NoOffers(tasks[1..]);
    }
  }

  lemma LedgerOver(l: LookupSide)
    requires Ledger(l) && l.c.postLookup == [] && Offers(l.tasks) == []
    ensures l.c.ran + l.c.cancelled == l.offered
  {
    assert l.c.ran + l.c.cancelled + [] + [] == l.c.ran + l.c.cancelled;
  }

  /** Detach comes once and cancels every task offered that has not run; a collector that
      is done is deleted with nothing left to call it. */
  lemma DetachCancelsRest(l: LookupSide, pointedTo: bool)
    requires LookupInv(l) && l.tasks != [] && l.tasks[0].Detach?
    ensures var m := AfterTask(l, pointedTo);
            && !l.c.stage.detached && m.c.ran == l.c.ran && m.c.ran + m.c.cancelled == m.offered
            && (if l.c.stage.done then Gone(m) && m.deletes == l.deletes + 1 else Living(m))
  {
    DetachKeeps(l, pointedTo);
    LedgerKeeps(l, pointedTo);
    NoOffers(l.tasks[1..]);
    LedgerOver(AfterTask(l, pointedTo));
  }
}
