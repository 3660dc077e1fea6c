/**
 * The decision logic of the discovery page
 * (`src/components/pages/DiscoveryPage.tsx`): the set of discovery jobs
 * currently running, updated around each run request; the status shown for
 * each job; and the table order.
 */
module DiscoveryPage {
  import opened Wrappers
  import opened Js
  import opened UseApi

  /** One discovery job as listed by the backend (the fields this page decides on). */
  datatype Discovery = Discovery(
    id: int,
    name: string,
    ipAddress: string,
    portNo: int,
    status: bool,
    lastDiscoveryTime: Option<string>)

  // ===========================================================================
  // The running-jobs set

  /** The updater `prev => new Set(prev).add(id)`. */
  function WithRunning(prev: set<int>, id: int): (next: set<int>)
    ensures id in next
    ensures forall x :: x != id ==> (x in next <==> x in prev)
  {
    prev + {id}
  }

  /** The updater that copies the set and deletes `id` from the copy. */
  function WithoutRunning(prev: set<int>, id: int): (next: set<int>)
    ensures id !in next
    ensures forall x :: x != id ==> (x in next <==> x in prev)
  {
    prev - {id}
  }

  /** Starting a run that is already marked running changes nothing. */
  lemma StartIsIdempotent(prev: set<int>, id: int)
    requires id in prev
    ensures WithRunning(prev, id) == prev
  {
  }

  /**
   * The page's own state: the running set, and the removals that a
   * successful run has scheduled (each a delayed callback that has not yet
   * fired).
   */
  class Page {
    var running: set<int>
    var scheduled: multiset<int>

    /** The page mounts with no job running and no callback pending. */
    constructor ()
      ensures running == {} && scheduled == multiset{}
    {
      running, scheduled := {}, multiset{};
    }

    /** `handleRunDiscovery` before the request: the id is marked running. */
    method StartRun(id: int)
      modifies this
      ensures running == WithRunning(old(running), id)
      ensures running == Step(old(running), Started(id))
      ensures scheduled == old(scheduled)
    {
      running := WithRunning(running, id);
    }

    /**
     * `handleRunDiscovery` after `mutate` resolves: a truthy result schedules
     * the removal of the id, anything else removes it at once.
     */
    method RunSettled(id: int, result: Option<Json>)
      modifies this
      ensures TruthySlot(result) ==> running == old(running) && scheduled == old(scheduled) + multiset{id}
      ensures !TruthySlot(result) ==> running == WithoutRunning(old(running), id) && scheduled == old(scheduled)
      ensures running == Step(old(running), Settled(id, result))
    {
      if TruthySlot(result) {
        scheduled := scheduled + multiset{id};
      } else {
        running := WithoutRunning(running, id);
      }
    }

    /** The delayed callback of a successful run fires: it removes its id. */
    method RemovalFired(id: int)
      requires id in scheduled
      modifies this
      ensures running == WithoutRunning(old(running), id)
      ensures running == Step(old(running), Fired(id))
      ensures scheduled == old(scheduled) - multiset{id}
    {
      running := WithoutRunning(running, id);
      scheduled := scheduled - multiset{id};
    }

    /** The Run button of job `id` is disabled while a run mutation loads or while `id` is running. */
    function RunDisabled(runLoading: bool, id: int): (r: bool)
      reads this
      ensures id in running ==> r
      ensures runLoading ==> r
      ensures !runLoading && id !in running ==> !r
    {
      runLoading || id in running
    }

    /**
     * One whole `handleRunDiscovery` with its delayed callback allowed to
     * fire: the id is marked running, the run mutation settles, and on either
     * path the id ends up removed while every other running id stays.
     */
    method HandleRunDiscovery(id: int, run: Mutation, outcome: CallOutcome) returns (result: Option<Json>)
      modifies this, run
      ensures result == MutationResult(outcome)
      ensures running == old(running) - {id}
      ensures scheduled == old(scheduled)
      ensures !run.loading && run.error == OutcomeError(outcome)
    {
      StartRun(id);
      result := run.Mutate(outcome);
      RunSettled(id, result);
      if TruthySlot(result) {
        RemovalFired(id);
      }
    }
  }

  // ---------------------------------------------------------------------------
  // The running set over a whole sequence of page events

  /** What happens to the running set: a run starts, a run's mutation settles, a scheduled removal fires. */
  datatype PageEvent =
    | Started(id: int)
    | Settled(id: int, result: Option<Json>)
    | Fired(id: int)

  /** The running-set update each event performs, as the methods of `Page` do. */
  function Step(running: set<int>, e: PageEvent): (r: set<int>)
    ensures forall x :: x != e.id ==> (x in r <==> x in running)
    ensures e.Started? ==> e.id in r
    ensures e.Fired? ==> e.id !in r
    ensures e.Settled? ==> (if TruthySlot(e.result) then r == running else e.id !in r)
  {
    match e
    case Started(id) => WithRunning(running, id)
    case Settled(id, result) => if TruthySlot(result) then running else WithoutRunning(running, id)
    case Fired(id) => WithoutRunning(running, id)
  }

  /** The running set after `events`, from the empty set at mount. */
  function Replay(events: seq<PageEvent>): (r: set<int>)
    ensures forall x :: x in r ==> exists i :: 0 <= i < |events| && events[i] == Started(x)
    decreases |events|
  {
    if events == [] then {} else Step(Replay(events[..|events| - 1]), events[|events| - 1])
  }

  /** The event takes `id` out of the running set. */
  predicate Removes(e: PageEvent, id: int) {
    e.id == id && (e.Fired? || (e.Settled? && !TruthySlot(e.result)))
  }

  /**
   * A job is running exactly when it was started and no later event removed
   * it; events about other jobs play no part.
   */
  lemma {:induction false} RunningIffStartedNotRemoved(events: seq<PageEvent>, id: int)
    ensures id in Replay(events) <==>
              exists i :: 0 <= i < |events| && events[i] == Started(id)
                          && forall j :: i < j < |events| ==> !Removes(events[j], id)
  {
    if events != [] {
      var n := |events| - 1;
      var init := events[..n];
      RunningIffStartedNotRemoved(init, id);
      assert forall i :: 0 <= i < n ==> init[i] == events[i];
      var e := events[n];
      if e == Started(id) {
        assert id in Replay(events);
      } else if Removes(e, id) {
        assert id !in Replay(events);
      } else {
        assert (id in Replay(events)) == (id in Replay(init));
        if id in Replay(init) {
          var i :| 0 <= i < n && init[i] == Started(id) && forall j :: i < j < n ==> !Removes(init[j], id);
          assert forall j :: i < j < |events| ==> !Removes(events[j], id);
        }
      }
    }
  }

  /**
   * The Run button of a job, when no run mutation is loading, is disabled
   * exactly when the job was started and no later event removed it.
   */
  lemma RunButtonFollowsEvents(p: Page, events: seq<PageEvent>, id: int)
    requires p.running == Replay(events)
    ensures !p.RunDisabled(false, id) <==>
              forall i :: 0 <= i < |events| && events[i] == Started(id) ==>
                exists j :: i < j < |events| && Removes(events[j], id)
  {
    RunningIffStartedNotRemoved(events, id);
  }

  /** Two runs `a` then `b`: completing `a` leaves `b` running; completing `b` leaves nothing running. */
  lemma TwoRunsExample(a: int, b: int)
    requires a != b
    ensures Replay([Started(a), Started(b), Settled(a, None)]) == {b}
    ensures Replay([Started(a), Started(b), Settled(a, None), Settled(b, None)]) == {}
  {
    var e1, e2, e3 := [Started(a)], [Started(a), Started(b)], [Started(a), Started(b), Settled(a, None)];
    var e4 := e3 + [Settled(b, None)];
    assert e1[..0] == [] && e2[..1] == e1 && e3[..2] == e2 && e4[..3] == e3;
    assert Replay(e1) == {a};
    assert Replay(e2) == {a, b};
    assert Replay(e3) == {b};
    assert Replay(e4) == {};
    assert e4 == [Started(a), Started(b), Settled(a, None), Settled(b, None)];
  }

  // ===========================================================================
  // Job status

  /** The status of a job as the page shows it. */
  datatype StatusKind = Running | Reachable | Failed | Pending

  /** `discovery.lastdiscoverytime` is truthy: present and not the empty string. */
  predicate HasRun(d: Discovery) {
    d.lastDiscoveryTime.Some? && d.lastDiscoveryTime.value != ""
  }

  /** The precedence the three status functions share: running, then reachable, then failed, then pending. */
  function StatusOf(running: set<int>, d: Discovery): (k: StatusKind)
    ensures k == Running <==> d.id in running
    ensures k == Reachable <==> d.id !in running && d.status
    ensures k == Failed <==> d.id !in running && !d.status && HasRun(d)
    ensures k == Pending <==> d.id !in running && !d.status && !HasRun(d)
  {
    if d.id in running then Running
    else if d.status then Reachable
    else if HasRun(d) then Failed
    else Pending
  }

  function TextOf(k: StatusKind): string {
    match k
    case Running => "Running"
    case Reachable => "Reachable"
    case Failed => "Failed"
    case Pending => "Pending"
  }

  /** `getStatusText`. */
  function StatusText(running: set<int>, d: Discovery): (t: string)
    ensures t == TextOf(StatusOf(running, d))
  {
    if d.id in running then "Running"
    else if d.status then "Reachable"
    else if HasRun(d) then "Failed"
    else "Pending"
  }

  /** The icons `getStatusIcon` chooses from. */
  datatype Icon = Spinner | CheckCircle | XCircle | Clock

  function IconOf(k: StatusKind): Icon {
    match k
    case Running => Spinner
    case Reachable => CheckCircle
    case Failed => XCircle
    case Pending => Clock
  }

  /** `getStatusIcon`. */
  function StatusIcon(running: set<int>, d: Discovery): (icon: Icon)
    ensures icon == IconOf(StatusOf(running, d))
  {
    if d.id in running then Spinner
    else if d.status then CheckCircle
    else if HasRun(d) then XCircle
    else Clock
  }

  const BadgeBase: string := "px-2 py-1 rounded-full text-xs font-medium"

  function BadgeOf(k: StatusKind): string {
    match k
    case Running => BadgeBase + " bg-blue-900/30 text-blue-400 border border-blue-500/30"
    case Reachable => BadgeBase + " bg-emerald-900/30 text-emerald-400 border border-emerald-500/30"
    case Failed => BadgeBase + " bg-red-900/30 text-red-400 border border-red-500/30"
    case Pending => BadgeBase + " bg-gray-900/30 text-gray-400 border border-gray-500/30"
  }

  /** `getStatusBadge`. */
  function StatusBadge(running: set<int>, d: Discovery): (classes: string)
    ensures classes == BadgeOf(StatusOf(running, d))
  {
    if d.id in running then BadgeBase + " bg-blue-900/30 text-blue-400 border border-blue-500/30"
    else if d.status then BadgeBase + " bg-emerald-900/30 text-emerald-400 border border-emerald-500/30"
    else if HasRun(d) then BadgeBase + " bg-red-900/30 text-red-400 border border-red-500/30"
    else BadgeBase + " bg-gray-900/30 text-gray-400 border border-gray-500/30"
  }

  // ===========================================================================
  // Table order: `[...discoveries].sort((a, b) => a.id - b.id)`

  predicate SortedById(ds: seq<Discovery>) {
    forall i, j :: 0 <= i < j < |ds| ==> ds[i].id <= ds[j].id
  }

  /** The jobs of `ds` with the given id, in their order in `ds`. */
  function WithId(ds: seq<Discovery>, id: int): seq<Discovery> {
    if ds == [] then []
    else (if ds[0].id == id then [ds[0]] else []) + WithId(ds[1..], id)
  }

  /** Put `d` into a sorted list, before the first job whose id is not smaller. */
  function InsertById(d: Discovery, ds: seq<Discovery>): (r: seq<Discovery>)
    requires SortedById(ds)
    ensures SortedById(r)
    ensures multiset(r) == multiset(ds) + multiset{d}
    ensures ds != [] ==> r[0] == d || r[0] == ds[0]
  {
    if ds == [] || d.id <= ds[0].id then [d] + ds
    else
      assert ds == [ds[0]] + ds[1..];
      var rest := InsertById(d, ds[1..]);
      PrependSorted(ds[0], rest);
      [ds[0]] + rest
  }

  /** A job whose id is at most the first id of a sorted list can go in front of it. */
  lemma PrependSorted(x: Discovery, ds: seq<Discovery>)
    requires SortedById(ds)
    requires ds != [] ==> x.id <= ds[0].id
    ensures SortedById([x] + ds)
  {
  }

  /** The displayed order: a sorted copy of the list, with the same jobs. */
  function SortById(ds: seq<Discovery>): (r: seq<Discovery>)
    ensures SortedById(r)
    ensures multiset(r) == multiset(ds)
  {
    if ds == [] then []
    else
      assert ds == [ds[0]] + ds[1..];
      InsertById(ds[0], SortById(ds[1..]))
  }

  lemma {:induction false} InsertKeepsSameIdOrder(d: Discovery, ds: seq<Discovery>, id: int)
    requires SortedById(ds)
    ensures WithId(InsertById(d, ds), id) == if d.id == id then [d] + WithId(ds, id) else WithId(ds, id)
  {
    var r := InsertById(d, ds);
    if ds == [] || d.id <= ds[0].id {
      assert r == [d] + ds;
      assert r[1..] == ds;
    } else {
      var rest := InsertById(d, ds[1..]);
      InsertKeepsSameIdOrder(d, ds[1..], id);
      assert r == [ds[0]] + rest;
      assert r[1..] == rest;
      assert WithId(r, id) == (if ds[0].id == id then [ds[0]] else []) + WithId(rest, id);
      assert WithId(ds, id) == (if ds[0].id == id then [ds[0]] else []) + WithId(ds[1..], id);
    }
  }

  /** The sort is stable: jobs sharing an id keep their relative order. */
  lemma {:induction false} SortIsStable(ds: seq<Discovery>, id: int)
    ensures WithId(SortById(ds), id) == WithId(ds, id)
  {
    if ds != [] {
      var sorted := SortById(ds[1..]);
      assert SortById(ds) == InsertById(ds[0], sorted);
      SortIsStable(ds[1..], id);
      InsertKeepsSameIdOrder(ds[0], sorted, id);
      assert WithId(ds, id) == (if ds[0].id == id then [ds[0]] else []) + WithId(ds[1..], id);
    }
  }
}
