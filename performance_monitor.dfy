/**
  The performance monitor: a bounded history of system samples filled by the
  monitoring loop, the projected history it serves, the resource report the
  health checker reads, and the health summary of the current sample.

  Reading the operating system (psutil) is foreign: a sample is an input.
  Timestamps are seconds as integers; `isoformat` rendering is left out.
*/
module PerformanceMonitor {
  import opened Wrappers
  import opened Bounded
  import opened StatusRules

  /** One `PerformanceMetrics` sample. */
  datatype Sample = Sample(
    timestamp: int,
    cpuPercent: real,
    cpuCount: int,
    cpuFreqCurrent: real,
    memoryPercent: real,
    memoryTotal: int,
    memoryUsed: int,
    memoryAvailable: int,
    diskTotal: int,
    diskUsed: int,
    diskFree: int,
    diskPercent: real,
    networkBytesSent: int,
    networkBytesRecv: int,
    networkPacketsSent: int,
    networkPacketsRecv: int,
    bootTime: int,
    processCount: int)

  /** The dictionary `get_metrics_history` makes of one sample. */
  datatype MetricsView = MetricsView(
    timestamp: int,
    cpuPercent: real,
    memoryPercent: real,
    diskPercent: real,
    networkBytesSent: int,
    networkBytesRecv: int,
    processCount: int)

  const MaxHistorySize: nat := 1000

  function View(s: Sample): MetricsView {
    MetricsView(s.timestamp, s.cpuPercent, s.memoryPercent, s.diskPercent,
                s.networkBytesSent, s.networkBytesRecv, s.processCount)
  }

  /**
    `get_metrics_history(limit)` over the history `h`: one view per sample of the
    recent slice, in history order; the newest `limit` samples for a positive limit,
    all of them for no limit or zero.
  */
  function MetricsHistory(h: seq<Sample>, limit: Option<int>): (r: seq<MetricsView>)
    ensures |r| <= |h|
    ensures forall i :: 0 <= i < |r| ==> r[i] == View(h[|h| - |r| + i])
    ensures limit.None? || limit.value == 0 ==> |r| == |h|
    ensures limit.Some? && limit.value > 0 ==> |r| == (if limit.value < |h| then limit.value else |h|)
  {
    var recent := Recent(h, limit);
    seq(|recent|, i requires 0 <= i < |recent| => View(recent[i]))
  }

  // ---------------------------------------------------------------- resources

  /** The memory and disk dictionaries of `get_system_resources`. */
  datatype MemoryInfo = MemoryInfo(total: int, used: int, available: int, percent: real)
  datatype DiskInfo = DiskInfo(total: int, used: int, free: int, percent: real)

  /**
    The resource report: the cpu dictionary (keyed by name, a missing temperature
    is `None`), memory and disk; `NoResources` is the empty dictionary returned
    when collecting failed. GPU, network and system entries are not read by the
    modelled code and are left out.
  */
  datatype Resources =
    | Resources(cpu: map<string, Option<real>>, memory: MemoryInfo, disk: DiskInfo)
    | NoResources

  /** The keys of the cpu dictionary, as `get_system_resources` writes them. */
  const CpuUsageKey := "cpu_usage"
  const CpuCoresKey := "cpu_cores"
  const CpuFrequencyKey := "cpu_frequency"
  const CpuTemperatureKey := "cpu_temperature"

  /** `get_system_resources` for the sample `s` and the sensor reading `temperature`. */
  function SystemResources(s: Sample, temperature: Option<real>): (r: Resources)
    ensures r.Resources?
    ensures r.cpu.Keys == {CpuUsageKey, CpuCoresKey, CpuFrequencyKey, CpuTemperatureKey}
    ensures r.cpu[CpuTemperatureKey] == temperature
    ensures r.memory.percent == s.memoryPercent && r.disk.percent == s.diskPercent
  {
    Resources(
      map[CpuUsageKey := Some(s.cpuPercent),
          CpuCoresKey := Some(s.cpuCount as real),
          CpuFrequencyKey := Some(s.cpuFreqCurrent),
          CpuTemperatureKey := temperature],
      MemoryInfo(s.memoryTotal, s.memoryUsed, s.memoryAvailable, s.memoryPercent),
      DiskInfo(s.diskTotal, s.diskUsed, s.diskFree, s.diskPercent))
  }

  // ---------------------------------------------------------------- summary

  datatype Trends = Trends(cpuTrendPercent: real, memoryTrendPercent: real)

  datatype Summary = Summary(
    status: string,
    timestamp: int,
    cpuPercent: real,
    memoryPercent: real,
    diskPercent: real,
    issues: seq<string>,
    trends: Option<Trends>,
    uptimeHours: real)

  /** The four checks of `get_performance_summary`, in the order they run. */
  function SummaryRules(s: Sample): (r: seq<Rule>)
    ensures |r| == 4 && forall i :: 0 <= i < |r| ==> r[i].status in {"warning", "critical"}
  {
    [ Rule(s.cpuPercent > 80.0, "warning", "High CPU usage"),
      Rule(s.memoryPercent > 85.0, "warning", "High memory usage"),
      Rule(s.diskPercent > 90.0, "critical", "High disk usage"),
      Rule(s.cpuPercent > 95.0, "critical", "Critical CPU usage") ]
  }

  /** Last minus first cpu and memory reading over the recent views, when there are at least two. */
  function TrendsOf(recent: seq<MetricsView>): (r: Option<Trends>)
    ensures r.Some? <==> |recent| >= 2
    ensures r.Some? ==> (r.value.cpuTrendPercent > 0.0 <==> recent[|recent| - 1].cpuPercent > recent[0].cpuPercent)
    ensures r.Some? ==> (r.value.memoryTrendPercent > 0.0 <==> recent[|recent| - 1].memoryPercent > recent[0].memoryPercent)
  {
    if |recent| > 1 then
      Some(Trends(recent[|recent| - 1].cpuPercent - recent[0].cpuPercent,
                  recent[|recent| - 1].memoryPercent - recent[0].memoryPercent))
    else None
  }

  /**
    The summary status is critical iff disk > 90 or cpu > 95; otherwise warning iff
    cpu > 80 or memory > 85; otherwise healthy.
  */
  lemma SummaryStatus(s: Sample)
    ensures var status := FinalStatus(SummaryRules(s), "healthy");
      && (status == "critical" <==> s.diskPercent > 90.0 || s.cpuPercent > 95.0)
      && (status == "warning" <==> !(s.diskPercent > 90.0 || s.cpuPercent > 95.0) && (s.cpuPercent > 80.0 || s.memoryPercent > 85.0))
      && (status == "healthy" <==> !(s.diskPercent > 90.0 || s.cpuPercent > 95.0 || s.cpuPercent > 80.0 || s.memoryPercent > 85.0))
  {
    var rules := SummaryRules(s);
    if s.cpuPercent > 95.0 {
      FinalStatusLastFired(rules, "healthy", 3);
    } else if s.diskPercent > 90.0 {
      FinalStatusLastFired(rules, "healthy", 2);
    } else if s.memoryPercent > 85.0 {
      FinalStatusLastFired(rules, "healthy", 1);
    } else if s.cpuPercent > 80.0 {
      FinalStatusLastFired(rules, "healthy", 0);
    } else {
      FinalStatusNoneFired(rules, "healthy");
    }
  }

  /** The issues of the summary checks written out: one per check that fires, in check order. */
  lemma SummaryIssuesInOrder(s: Sample)
    ensures Issues(SummaryRules(s))
         == (if s.cpuPercent > 80.0 then ["High CPU usage"] else [])
          + (if s.memoryPercent > 85.0 then ["High memory usage"] else [])
          + (if s.diskPercent > 90.0 then ["High disk usage"] else [])
          + (if s.cpuPercent > 95.0 then ["Critical CPU usage"] else [])
  {
    var rules := SummaryRules(s);
    var i1: seq<string> := if s.cpuPercent > 80.0 then ["High CPU usage"] else [];
    var i2: seq<string> := if s.memoryPercent > 85.0 then ["High memory usage"] else [];
    var i3: seq<string> := if s.diskPercent > 90.0 then ["High disk usage"] else [];
    var i4: seq<string> := if s.cpuPercent > 95.0 then ["Critical CPU usage"] else [];
    assert rules[..0] == [];
    RulesSnoc(rules, 0, "healthy");
    assert Issues(rules[..1]) == i1;
    RulesSnoc(rules, 1, "healthy");
    assert Issues(rules[..2]) == i1 + i2;
    RulesSnoc(rules, 2, "healthy");
    assert Issues(rules[..3]) == i1 + i2 + i3;
    RulesSnoc(rules, 3, "healthy");
    assert rules[..4] == rules;
  }

  /**
    The issues follow the check order; a cpu reading above 95 reports both the
    high and the critical cpu issue, high first.
  */
  lemma SummaryIssues(s: Sample)
    ensures var issues := Issues(SummaryRules(s));
      && |issues| <= 4
      && (issues == [] <==> !(s.cpuPercent > 80.0 || s.memoryPercent > 85.0 || s.diskPercent > 90.0))
      && (s.cpuPercent > 95.0 ==> issues[0] == "High CPU usage" && issues[|issues| - 1] == "Critical CPU usage")
  {
    SummaryIssuesInOrder(s);
  }

  /**
    The trends come from the up-to-ten newest samples: present iff the history holds
    at least two samples, and then the newest reading minus the oldest of that window.
  */
  lemma TrendsWindow(h: seq<Sample>)
    ensures var t := TrendsOf(MetricsHistory(h, Some(10)));
      && (t.Some? <==> |h| >= 2)
      && (t.Some? ==>
            var first := h[|h| - (if |h| < 10 then |h| else 10)];
            && t.value.cpuTrendPercent == h[|h| - 1].cpuPercent - first.cpuPercent
            && t.value.memoryTrendPercent == h[|h| - 1].memoryPercent - first.memoryPercent)
  {
    var r := MetricsHistory(h, Some(10));
    if |r| > 1 {
      assert r[0] == View(h[|h| - |r|]);
      assert r[|r| - 1] == View(h[|h| - 1]);
    }
  }

  /**
    The status block of `get_performance_summary`: start healthy, and let each of the
    four checks that fires overwrite the status and append its issue.
  */
  method AssessSample(s: Sample) returns (status: string, issues: seq<string>)
    ensures status == FinalStatus(SummaryRules(s), "healthy")
    ensures issues == Issues(SummaryRules(s))
  {
    ghost var i1: seq<string> := if s.cpuPercent > 80.0 then ["High CPU usage"] else [];
    ghost var i2: seq<string> := if s.memoryPercent > 85.0 then ["High memory usage"] else [];
    ghost var i3: seq<string> := if s.diskPercent > 90.0 then ["High disk usage"] else [];
    ghost var i4: seq<string> := if s.cpuPercent > 95.0 then ["Critical CPU usage"] else [];
    status := "healthy";
    issues := [];
    if s.cpuPercent > 80.0 {
      status := "warning";
      issues := issues + ["High CPU usage"];
    }
    assert issues == i1;
    if s.memoryPercent > 85.0 {
      status := "warning";
      issues := issues + ["High memory usage"];
    }
    assert issues == i1 + i2;
    if s.diskPercent > 90.0 {
      status := "critical";
      issues := issues + ["High disk usage"];
    }
    assert issues == i1 + i2 + i3;
    if s.cpuPercent > 95.0 {
      status := "critical";
      issues := issues + ["Critical CPU usage"];
    }
    assert issues == i1 + i2 + i3 + i4;
    assert status == if s.cpuPercent > 95.0 || s.diskPercent > 90.0 then "critical"
                 else if s.cpuPercent > 80.0 || s.memoryPercent > 85.0 then "warning"
                 else "healthy";
    SummaryStatus(s);
    SummaryIssuesInOrder(s);
  }

  // ---------------------------------------------------------------- the monitor

  class Monitor {
    var metricsHistory: seq<Sample>
    var monitoring: bool

    /** The history never exceeds its bound. */
    predicate Valid()
      reads this
    {
      |metricsHistory| <= MaxHistorySize
    }

    constructor()
      ensures Valid() && metricsHistory == [] && !monitoring
    {
      metricsHistory := [];
      monitoring := false;
    }

    /**
      One step of the monitoring loop: append the sample, then keep only the newest
      1000. The bound is kept, the sample is last, and when the history was full
      exactly the oldest sample is dropped.
    */
    method RecordSample(s: Sample)
      requires Valid()
      modifies this
      ensures Valid() && monitoring == old(monitoring)
      ensures metricsHistory == KeepLast(old(metricsHistory) + [s], MaxHistorySize)
      ensures metricsHistory[|metricsHistory| - 1] == s
      ensures metricsHistory == if |old(metricsHistory)| < MaxHistorySize
                                then old(metricsHistory) + [s]
                                else old(metricsHistory)[1..] + [s]
    {
      AppendBounded(metricsHistory, s, MaxHistorySize);
      metricsHistory := metricsHistory + [s];
      if |metricsHistory| > MaxHistorySize {
        metricsHistory := metricsHistory[|metricsHistory| - MaxHistorySize..];
      }
    }

    /**
      `get_performance_summary` for the current sample: status and issues by the
      four checks, the current readings, trends over the ten newest history entries
      and the uptime in hours.
    */
    method GetPerformanceSummary(current: Sample) returns (r: Summary)
      ensures r.status == FinalStatus(SummaryRules(current), "healthy")
      ensures r.issues == Issues(SummaryRules(current))
      ensures r.trends == TrendsOf(MetricsHistory(metricsHistory, Some(10)))
      ensures r.timestamp == current.timestamp
      ensures r.cpuPercent == current.cpuPercent && r.memoryPercent == current.memoryPercent
      ensures r.diskPercent == current.diskPercent
      ensures r.uptimeHours == (current.timestamp - current.bootTime) as real / 3600.0
    {
      var status, issues := AssessSample(current);
      var recent := MetricsHistory(metricsHistory, Some(10));
      var trends: Option<Trends> := None;
      if |recent| > 1 {
        var cpuTrend := recent[|recent| - 1].cpuPercent - recent[0].cpuPercent;
        var memoryTrend := recent[|recent| - 1].memoryPercent - recent[0].memoryPercent;
        trends := Some(Trends(cpuTrend, memoryTrend));
      }
      r := Summary(status, current.timestamp, current.cpuPercent, current.memoryPercent,
                   current.diskPercent, issues, trends,
                   (current.timestamp - current.bootTime) as real / 3600.0);
    }

    /** `cleanup`: monitoring stops and the history is emptied. */
    method Cleanup()
      modifies this
      ensures Valid() && metricsHistory == [] && !monitoring
    {
      monitoring := false;
      metricsHistory := [];
    }
  }
}
