/** The collector of property-cache lookups: its fields, the tasks run one at a time
    on its sequence, and the class whose methods are those tasks. */
module PropertyCollecting {

  datatype LookupTask =
    | LookupDone(id: nat)
    | AddPostLookup(id: nat)
    | HeadersReady
    | Connect
    | Detach
  {
    // Lookups end and post-lookup tasks are offered at any time; the control tasks above
    // them come in this order.
    function Rank(): nat {
      match this
      case LookupDone(_) => 0
      case AddPostLookup(_) => 1
      case HeadersReady => 2
      case Connect => 3
      case Detach => 3
    }
  }

  datatype Stage = Stage(done: bool, headersOk: bool, connected: bool, detached: bool)

  /** `ran` and `cancelled` record what became of the post-lookup tasks. */
  datatype Collector = Collector(
    pending: set<nat>,
    stage: Stage,
    postLookup: seq<nat>,
    ran: seq<nat>,
    cancelled: seq<nat>)

  function NewCollector(lookups: set<nat>): Collector {
    Collector(lookups, Stage(false, false, false, false), [], [], [])
  }

  /** What running a task leaves to do with the collector. */
  datatype Outcome = Stays | CompletesFetch | DeletesItself

  datatype Ran = Ran(c: Collector, outcome: Outcome)

  function Cleanup(c: Collector): Ran {
    if c.stage.done && c.stage.detached then Ran(c, DeletesItself)
    else if !c.stage.done || !c.stage.headersOk then Ran(c, Stays)
    else Ran(c.(ran := c.ran + c.postLookup, postLookup := []), if c.stage.connected then CompletesFetch else Stays)
  }

  function RunTask(c: Collector, task: LookupTask): Ran {
    match task
    case LookupDone(id) =>
      var d := c.(pending := c.pending - {id});
      if d.pending == {} then Cleanup(d.(stage := d.stage.(done := true))) else Ran(d, Stays)
    case AddPostLookup(id) =>
      if c.stage.done && c.stage.headersOk then Ran(c.(ran := c.ran + [id]), Stays)
      else Ran(c.(postLookup := c.postLookup + [id]), Stays)
    case HeadersReady =>
      Cleanup(c.(stage := c.stage.(headersOk := true)))
    case Connect =>
      Ran(c.(stage := c.stage.(connected := true)), if c.stage.done then CompletesFetch else Stays)
    case Detach =>
      var stage := c.stage.(detached := true, connected := false);
      Ran(c.(stage := stage, cancelled := c.cancelled + c.postLookup, postLookup := []),
          if c.stage.done then DeletesItself else Stays)
  }

  class ProxyFetchPropertyCallbackCollector {
    var pendingCallbacks: set<nat>
    var done: bool
    var requestHeadersOk: bool
    var connected: bool
    var detached: bool
    var postLookupTasks: seq<nat>
    var ran: seq<nat>
    var cancelled: seq<nat>

    ghost function View(): Collector
      reads this
    {
      Collector(pendingCallbacks, Stage(done, requestHeadersOk, connected, detached), postLookupTasks, ran, cancelled)
    }

    constructor (lookups: set<nat>)
      ensures View() == NewCollector(lookups)
    {
      pendingCallbacks, done, requestHeadersOk, connected, detached := lookups, false, false, false, false;
      postLookupTasks, ran, cancelled := [], [], [];
    }

    method RunPostLookupsAndCleanupIfSafe() returns (outcome: Outcome)
      modifies this
      ensures Ran(View(), outcome) == Cleanup(old(View()))
    {
      if done && detached {
        return DeletesItself;
      }
      if !done || !requestHeadersOk {
        return Stays;
      }
      var i := 0;
      while i < |postLookupTasks|
        invariant 0 <= i <= |postLookupTasks| && postLookupTasks == old(postLookupTasks)
        invariant View() == old(View()).(ran := old(ran) + old(postLookupTasks)[..i])
      {
        ran := ran + [postLookupTasks[i]];
        i := i + 1;
      }
      assert old(postLookupTasks)[..i] == old(postLookupTasks);
      postLookupTasks := [];
      return if connected then CompletesFetch else Stays;
    }

    method ExecuteDone(id: nat) returns (outcome: Outcome)
      modifies this
      ensures Ran(View(), outcome) == RunTask(old(View()), LookupDone(id))
    {
      pendingCallbacks := pendingCallbacks - {id};
      if pendingCallbacks == {} {
        done := true;
        outcome := RunPostLookupsAndCleanupIfSafe();
      } else {
        outcome := Stays;
      }
    }

    method ExecuteRequestHeadersComplete() returns (outcome: Outcome)
      modifies this
      ensures Ran(View(), outcome) == RunTask(old(View()), HeadersReady)
    {
      requestHeadersOk := true;
      outcome := RunPostLookupsAndCleanupIfSafe();
    }

    method ExecuteConnectProxyFetch() returns (outcome: Outcome)
      requires !connected && !detached
      modifies this
      ensures Ran(View(), outcome) == RunTask(old(View()), Connect)
    {
      connected := true;
      return if done then CompletesFetch else Stays;
    }

    method ExecuteDetach() returns (outcome: Outcome)
      requires !detached
      modifies this
      ensures Ran(View(), outcome) == RunTask(old(View()), Detach)
    {
      detached := true;
      connected := false;
      var i := 0;
      while i < |postLookupTasks|
        invariant 0 <= i <= |postLookupTasks| && postLookupTasks == old(postLookupTasks)
        invariant View() == old(View()).(
                                stage := old(View()).stage.(detached := true, connected := false),
                                cancelled := old(cancelled) + old(postLookupTasks)[..i])
      {
        cancelled := cancelled + [postLookupTasks[i]];
        i := i + 1;
      }
      assert old(postLookupTasks)[..i] == old(postLookupTasks);
      postLookupTasks := [];
      return if done then DeletesItself else Stays;
    }

    method ExecuteAddPostLookupTask(id: nat) returns (outcome: Outcome)
      requires !detached
      modifies this
      ensures Ran(View(), outcome) == RunTask(old(View()), AddPostLookup(id))
    {
      if done && requestHeadersOk {
        ran := ran + [id];
      } else {
        postLookupTasks := postLookupTasks + [id];
      }
      return Stays;
    }
  }
}
