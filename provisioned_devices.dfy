/**
 * The decision logic of the provisioned-devices page
 * (`src/components/pages/ProvisionedDevicesPage.tsx`): the latest telemetry
 * snapshot, the chart history rebuilt from the last twenty snapshots
 * unless the newest one reports an error, and the device search filter.
 */
module ProvisionedDevices {
  import opened Wrappers
  import opened Text

  /** A metric reading. The page only copies readings into chart series and never computes on them. */
  type Metric = real

  /** The value `?? 0` puts in place of a missing reading. */
  const Zero: Metric := 0.0

  /** The fields of a snapshot's `data` that the page reads (dotted metric keys in the wire format). */
  datatype Metrics = Metrics(
    ip: string,
    cpuPercent: Option<Metric>,         // system.cpu.percent
    memoryUsedPercent: Option<Metric>,  // system.memory.used.percent
    diskUsedPercent: Option<Metric>,    // system.disk.used.percent
    loadAvg1Min: Option<Metric>,        // system.load.avg1.min
    error: Option<string>)

  /** One poll result for a device. */
  datatype Snapshot = Snapshot(monitorId: int, timestamp: string, data: Metrics)

  /** The chart state `historicalData`: five parallel series. */
  datatype History = History(
    timestamps: seq<string>,
    cpuUsage: seq<Metric>,
    memoryUsage: seq<Metric>,
    diskUsage: seq<Metric>,
    loadAverage: seq<Metric>)

  const WindowSize: nat := 20

  // ===========================================================================
  // Latest snapshot and the rolling window

  /** `latest`: the last snapshot, absent when there is none. */
  function Latest(snapshots: seq<Snapshot>): (r: Option<Snapshot>)
    ensures r.None? <==> snapshots == []
    ensures r.Some? ==> r.value == snapshots[|snapshots| - 1]
  {
    if |snapshots| > 0 then Some(snapshots[|snapshots| - 1]) else None
  }

  /** `s.data.error` is truthy. */
  predicate HasError(s: Snapshot) {
    s.data.error.Some? && s.data.error.value != ""
  }

  /** The condition of the history effect: some snapshot, and the newest carries no error. */
  function Rebuilds(snapshots: seq<Snapshot>): (r: bool)
    ensures r <==> |snapshots| > 0 && !HasError(snapshots[|snapshots| - 1])
  {
    match Latest(snapshots)
    case None => false
    case Some(latest) => !HasError(latest)
  }

  /** `snapshots.slice(-20)`: the last min(n, 20) snapshots, oldest first. */
  function Window(snapshots: seq<Snapshot>): (w: seq<Snapshot>)
    ensures |w| <= WindowSize && |w| <= |snapshots|
    ensures |w| == |snapshots| || |w| == WindowSize
    ensures w == snapshots[|snapshots| - |w|..]
  {
    if |snapshots| <= WindowSize then snapshots else snapshots[|snapshots| - WindowSize..]
  }

  /** The window slides: one more snapshot is appended and, once it is full, the oldest drops out. */
  lemma WindowSlides(snapshots: seq<Snapshot>, s: Snapshot)
    ensures Window(snapshots + [s]) ==
              if |Window(snapshots)| < WindowSize then Window(snapshots) + [s] else Window(snapshots)[1..] + [s]
  {
    var n := |snapshots|;
    if n >= WindowSize {
      assert (snapshots + [s])[n + 1 - WindowSize..] == snapshots[n - WindowSize..][1..] + [s];
    }
  }

  /** Twenty-five snapshots leave the sixth to the twenty-fifth in the window. */
  lemma TwentyFiveExample(snapshots: seq<Snapshot>)
    requires |snapshots| == 25
    ensures Window(snapshots) == snapshots[5..]
  {
  }

  // ===========================================================================
  // Rebuilding the chart series

  /** `value ?? 0`. */
  function OrZero(m: Option<Metric>): Metric {
    if m.Some? then m.value else Zero
  }

  /**
   * The history the effect builds from the snapshot list: one point per
   * snapshot of the window in every series, the reading when present and 0
   * when not; `formatTime` is the timestamp formatting.
   */
  function BuildHistory(snapshots: seq<Snapshot>, formatTime: string -> string): (h: History)
    ensures var n := |Window(snapshots)|;
            |h.timestamps| == n && |h.cpuUsage| == n && |h.memoryUsage| == n
            && |h.diskUsage| == n && |h.loadAverage| == n && n <= WindowSize
    ensures forall i :: 0 <= i < |h.cpuUsage| ==>
              var m := Window(snapshots)[i].data;
              && h.timestamps[i] == formatTime(Window(snapshots)[i].timestamp)
              && (m.cpuPercent.Some? ==> h.cpuUsage[i] == m.cpuPercent.value)
              && (m.cpuPercent.None? ==> h.cpuUsage[i] == Zero)
              && (m.memoryUsedPercent.Some? ==> h.memoryUsage[i] == m.memoryUsedPercent.value)
              && (m.memoryUsedPercent.None? ==> h.memoryUsage[i] == Zero)
              && (m.diskUsedPercent.Some? ==> h.diskUsage[i] == m.diskUsedPercent.value)
              && (m.diskUsedPercent.None? ==> h.diskUsage[i] == Zero)
              && (m.loadAvg1Min.Some? ==> h.loadAverage[i] == m.loadAvg1Min.value)
              && (m.loadAvg1Min.None? ==> h.loadAverage[i] == Zero)
  {
    var w := Window(snapshots);
    History(
      seq(|w|, i requires 0 <= i < |w| => formatTime(w[i].timestamp)),
      seq(|w|, i requires 0 <= i < |w| => OrZero(w[i].data.cpuPercent)),
      seq(|w|, i requires 0 <= i < |w| => OrZero(w[i].data.memoryUsedPercent)),
      seq(|w|, i requires 0 <= i < |w| => OrZero(w[i].data.diskUsedPercent)),
      seq(|w|, i requires 0 <= i < |w| => OrZero(w[i].data.loadAvg1Min)))
  }

  /** The newest point of every series comes from the newest snapshot. */
  lemma NewestPointIsLatest(snapshots: seq<Snapshot>, formatTime: string -> string)
    requires Rebuilds(snapshots)
    ensures var h := BuildHistory(snapshots, formatTime);
            var latest := Latest(snapshots).value;
            && h.cpuUsage[|h.cpuUsage| - 1] == OrZero(latest.data.cpuPercent)
            && h.memoryUsage[|h.memoryUsage| - 1] == OrZero(latest.data.memoryUsedPercent)
            && h.diskUsage[|h.diskUsage| - 1] == OrZero(latest.data.diskUsedPercent)
            && h.loadAverage[|h.loadAverage| - 1] == OrZero(latest.data.loadAvg1Min)
            && h.timestamps[|h.timestamps| - 1] == formatTime(latest.timestamp)
  {
    var w := Window(snapshots);
    var h := BuildHistory(snapshots, formatTime);
    var n := |w|;
    assert 0 < n && |h.cpuUsage| == n;
    assert w[n - 1] == snapshots[|snapshots| - 1] == Latest(snapshots).value;
    var m := w[n - 1].data;
    assert h.timestamps[n - 1] == formatTime(w[n - 1].timestamp);
    assert h.cpuUsage[n - 1] == OrZero(m.cpuPercent);
    assert h.memoryUsage[n - 1] == OrZero(m.memoryUsedPercent);
    assert h.diskUsage[n - 1] == OrZero(m.diskUsedPercent);
    assert h.loadAverage[n - 1] == OrZero(m.loadAvg1Min);
  }

  /**
   * Only the newest snapshot's error is looked at: an error snapshot earlier
   * in the window still gives a point, of 0 where its readings are missing.
   */
  lemma EarlierErrorGivesZeroPoint(good: Snapshot, bad: Snapshot, formatTime: string -> string)
    requires !HasError(good) && HasError(bad) && bad.data.cpuPercent.None?
    ensures Rebuilds([good, bad, good])
    ensures BuildHistory([good, bad, good], formatTime).cpuUsage[1] == Zero
  {
  }

  /** The chart state of the page. */
  class DevicesView {
    var history: History

    /** The page mounts with five empty series. */
    constructor ()
      ensures history == History([], [], [], [], [])
    {
      history := History([], [], [], [], []);
    }

    /**
     * The history effect, run when new polling data arrives: when the list is
     * non-empty and its newest snapshot has no error, every series is replaced
     * by one built from the window, whatever the history held before;
     * otherwise the history stays exactly as it was.
     */
    method OnPollingData(snapshots: seq<Snapshot>, formatTime: string -> string)
      modifies this
      ensures Rebuilds(snapshots) ==> history == BuildHistory(snapshots, formatTime)
      ensures !Rebuilds(snapshots) ==> history == old(history)
    {
      if Rebuilds(snapshots) {
        var rebuilt := BuildHistory(snapshots, formatTime);
        history := history.(
          timestamps := rebuilt.timestamps,
          cpuUsage := rebuilt.cpuUsage,
          memoryUsage := rebuilt.memoryUsage,
          diskUsage := rebuilt.diskUsage,
          loadAverage := rebuilt.loadAverage);
      }
    }
  }

  // ===========================================================================
  // Device search

  /** A provisioned device as listed by the backend. */
  datatype Device = Device(
    monitorId: int,
    discoveryName: string,
    ipAddress: string,
    portNo: int,
    protocol: string,
    status: bool)

  /** The lower-cased name or IP contains the lower-cased search term. */
  predicate Matches(d: Device, term: string) {
    Contains(Lower(d.discoveryName), Lower(term)) || Contains(Lower(d.ipAddress), Lower(term))
  }

  /**
   * What the search rule means: the empty term matches every device, a name
   * or IP equal to the term up to case matches, and a match needs a term no
   * longer than the name or the IP it was found in.
   */
  lemma MatchRules(d: Device, term: string)
    ensures term == "" ==> Matches(d, term)
    ensures Lower(d.discoveryName) == Lower(term) || Lower(d.ipAddress) == Lower(term) ==> Matches(d, term)
    ensures Matches(d, term) ==> |term| <= |d.discoveryName| || |term| <= |d.ipAddress|
  {
    assert StartsWith(Lower(d.discoveryName)[0..], Lower(term)) <== Lower(d.discoveryName) == Lower(term);
    assert StartsWith(Lower(d.ipAddress)[0..], Lower(term)) <== Lower(d.ipAddress) == Lower(term);
    assert StartsWith(Lower(d.discoveryName)[0..], Lower(term)) <== term == "";
  }

  /** `filteredDevices`: the devices that match the term. */
  function FilterDevices(devices: seq<Device>, term: string): (r: seq<Device>)
    ensures |r| <= |devices|
    ensures forall d :: d in r ==> d in devices && Matches(d, term)
    ensures forall d :: d in devices && Matches(d, term) ==> d in r
  {
    if devices == [] then []
    else (if Matches(devices[0], term) then [devices[0]] else []) + FilterDevices(devices[1..], term)
  }

  /** Filtering keeps the original order: it distributes over concatenation. */
  lemma {:induction false} FilterAppend(a: seq<Device>, b: seq<Device>, term: string)
    ensures FilterDevices(a + b, term) == FilterDevices(a, term) + FilterDevices(b, term)
  {
    if a == [] {
      assert a + b == b;
    } else {
      var h := if Matches(a[0], term) then [a[0]] else [];
      calc {
        FilterDevices(a + b, term);
      ==  { assert (a + b)[0] == a[0]; }
        h + FilterDevices((a + b)[1..], term);
      ==  { assert (a + b)[1..] == a[1..] + b; }
        h + FilterDevices(a[1..] + b, term);
      ==  { FilterAppend(a[1..], b, term); }
        h + (FilterDevices(a[1..], term) + FilterDevices(b, term));
      ==
        (h + FilterDevices(a[1..], term)) + FilterDevices(b, term);
      }
    }
  }

  /** An empty search term keeps every device. */
  lemma {:induction false} EmptyTermKeepsAll(devices: seq<Device>)
    ensures FilterDevices(devices, "") == devices
  {
    if devices != [] {
      EmptyTermKeepsAll(devices[1..]);
      assert Contains(Lower(devices[0].discoveryName), Lower("")) by {
        assert StartsWith(Lower(devices[0].discoveryName)[0..], Lower(""));
      }
    }
  }

  /** The search ignores the case of the term. */
  lemma {:induction false} SearchIgnoresCase(devices: seq<Device>, term: string)
    ensures FilterDevices(devices, Lower(term)) == FilterDevices(devices, term)
  {
    LowerIdempotent(term);
    if devices != [] {
      SearchIgnoresCase(devices[1..], term);
    }
  }
}
