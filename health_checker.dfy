/**
  The health checker: four health sections (system, models, performance,
  service), the overall status ranked by priority, recommendations derived from
  the sections' statuses and issues, and a bounded history of reports.

  The readings each check takes are inputs: the current performance sample, the
  model listing (absent when no model manager is configured), the resource
  report, and the service section together with the uptime, whose timing and
  process-memory probes are foreign.
*/
module HealthChecker {
  import opened Wrappers
  import opened Text
  import opened Bounded
  import opened StatusRules
  import opened PerformanceMonitor
  import opened ModelManager

  /** The per-model dictionary of the model section. */
  datatype ModelDetail = ModelDetail(status: string, name: string, size: string, capabilities: seq<string>)

  /** The summary dictionary of the model section. */
  datatype ModelSummary = ModelSummary(totalModels: nat, healthyModels: nat, healthPercentage: real)

  /**
    One section of a health report: its status and issues, and for the model
    section the per-model details and the summary.
  */
  datatype Section = Section(status: string, issues: seq<string>, models: map<string, ModelDetail>, summary: Option<ModelSummary>)

  function Plain(status: string, issues: seq<string>): Section {
    Section(status, issues, map[], None)
  }

  // ---------------------------------------------------------------- system health

  /** The checks of the system section, in order; each resource has a critical and an `elif` warning tier. */
  function SystemRules(m: Sample): seq<Rule> {
    [ Rule(m.cpuPercent > 90.0, "critical", "Critical CPU usage"),
      Rule(!(m.cpuPercent > 90.0) && m.cpuPercent > 75.0, "warning", "High CPU usage"),
      Rule(m.memoryPercent > 90.0, "critical", "Critical memory usage"),
      Rule(!(m.memoryPercent > 90.0) && m.memoryPercent > 80.0, "warning", "High memory usage"),
      Rule(m.diskPercent > 95.0, "critical", "Critical disk usage"),
      Rule(!(m.diskPercent > 95.0) && m.diskPercent > 85.0, "warning", "High disk usage"),
      Rule(m.processCount > 1000, "warning", "High process count") ]
  }

  /**
    The system section: the status of the last check that fired and the issues of
    all that fired. It is healthy exactly when no check fired, and otherwise
    warning or critical, with at most one issue per resource and one for the
    process count.
  */
  function SystemSection(m: Sample): (h: Section)
    ensures h.status in {"healthy", "warning", "critical"}
    ensures h.status == "healthy" <==> h.issues == []
    ensures |h.issues| <= 4
  {
    SystemIssuesInOrder(m);
    SystemStatusLastWins(m);
    Plain(FinalStatus(SystemRules(m), "healthy"), Issues(SystemRules(m)))
  }

  /** The issue a two-tier check reports: the critical one, else the warning one, else none. */
  function Tiered(value: real, critical: real, warning: real, criticalIssue: string, warningIssue: string): seq<string> {
    if value > critical then [criticalIssue] else if value > warning then [warningIssue] else []
  }

  /** A two-tier check, as two rules, contributes the issue of the tier that fired. */
  lemma TierSnoc(rules: seq<Rule>, k: nat, value: real, critical: real, warning: real, criticalIssue: string, warningIssue: string)
    requires k + 1 < |rules|
    requires rules[k] == Rule(value > critical, "critical", criticalIssue)
    requires rules[k + 1] == Rule(!(value > critical) && value > warning, "warning", warningIssue)
    ensures Issues(rules[..k + 2]) == Issues(rules[..k]) + Tiered(value, critical, warning, criticalIssue, warningIssue)
  {
    RulesSnoc(rules, k, "healthy");
    RulesSnoc(rules, k + 1, "healthy");
  }

  /** The system issues written out: at most one per resource, in the order cpu, memory, disk, processes. */
  lemma SystemIssuesInOrder(m: Sample)
    ensures Issues(SystemRules(m))
         == Tiered(m.cpuPercent, 90.0, 75.0, "Critical CPU usage", "High CPU usage")
          + Tiered(m.memoryPercent, 90.0, 80.0, "Critical memory usage", "High memory usage")
          + Tiered(m.diskPercent, 95.0, 85.0, "Critical disk usage", "High disk usage")
          + (if m.processCount > 1000 then ["High process count"] else [])
  {
    var rules := SystemRules(m);
    var c := Tiered(m.cpuPercent, 90.0, 75.0, "Critical CPU usage", "High CPU usage");
    var mem := Tiered(m.memoryPercent, 90.0, 80.0, "Critical memory usage", "High memory usage");
    var d := Tiered(m.diskPercent, 95.0, 85.0, "Critical disk usage", "High disk usage");
    var p: seq<string> := if m.processCount > 1000 then ["High process count"] else [];
    assert rules[..0] == [];
    TierSnoc(rules, 0, m.cpuPercent, 90.0, 75.0, "Critical CPU usage", "High CPU usage");
    assert Issues(rules[..2]) == c;
    TierSnoc(rules, 2, m.memoryPercent, 90.0, 80.0, "Critical memory usage", "High memory usage");
    assert Issues(rules[..4]) == c + mem;
    TierSnoc(rules, 4, m.diskPercent, 95.0, 85.0, "Critical disk usage", "High disk usage");
    assert Issues(rules[..6]) == c + mem + d;
    RulesSnoc(rules, 6, "healthy");
    assert rules[..7] == rules;
    assert Issues(rules) == c + mem + d + p;
  }

  /**
    The system status is set by the last check that fired: the process count beats
    disk, disk beats memory, memory beats cpu, so a later warning overrides an
    earlier critical.
  */
  lemma SystemStatusLastWins(m: Sample)
    ensures FinalStatus(SystemRules(m), "healthy")
         == if m.processCount > 1000 then "warning"
            else if m.diskPercent > 95.0 then "critical"
            else if m.diskPercent > 85.0 then "warning"
            else if m.memoryPercent > 90.0 then "critical"
            else if m.memoryPercent > 80.0 then "warning"
            else if m.cpuPercent > 90.0 then "critical"
            else if m.cpuPercent > 75.0 then "warning"
            else "healthy"
  {
    var rules := SystemRules(m);
    if m.processCount > 1000 {
      FinalStatusLastFired(rules, "healthy", 6);
    } else if m.diskPercent > 95.0 {
      FinalStatusLastFired(rules, "healthy", 4);
    } else if m.diskPercent > 85.0 {
      FinalStatusLastFired(rules, "healthy", 5);
    } else if m.memoryPercent > 90.0 {
      FinalStatusLastFired(rules, "healthy", 2);
    } else if m.memoryPercent > 80.0 {
      FinalStatusLastFired(rules, "healthy", 3);
    } else if m.cpuPercent > 90.0 {
      FinalStatusLastFired(rules, "healthy", 0);
    } else if m.cpuPercent > 75.0 {
      FinalStatusLastFired(rules, "healthy", 1);
    } else {
      FinalStatusNoneFired(rules, "healthy");
    }
  }

  /**
    `_check_system_health`: start healthy and run the cpu, memory, disk and process
    checks in order, each overwriting the status and appending its issue.
  */
  method CheckSystemHealth(m: Sample) returns (h: Section)
    ensures h == SystemSection(m)
  {
    ghost var c := Tiered(m.cpuPercent, 90.0, 75.0, "Critical CPU usage", "High CPU usage");
    ghost var mem := Tiered(m.memoryPercent, 90.0, 80.0, "Critical memory usage", "High memory usage");
    ghost var d := Tiered(m.diskPercent, 95.0, 85.0, "Critical disk usage", "High disk usage");
    var status := "healthy";
    var issues: seq<string> := [];
    if m.cpuPercent > 90.0 {
      status := "critical";
      issues := issues + ["Critical CPU usage"];
    } else if m.cpuPercent > 75.0 {
      status := "warning";
      issues := issues + ["High CPU usage"];
    }
    assert issues == c;
    if m.memoryPercent > 90.0 {
      status := "critical";
      issues := issues + ["Critical memory usage"];
    } else if m.memoryPercent > 80.0 {
      status := "warning";
      issues := issues + ["High memory usage"];
    }
    assert issues == c + mem;
    if m.diskPercent > 95.0 {
      status := "critical";
      issues := issues + ["Critical disk usage"];
    } else if m.diskPercent > 85.0 {
      status := "warning";
      issues := issues + ["High disk usage"];
    }
    assert issues == c + mem + d;
    if m.processCount > 1000 {
      status := "warning";
      issues := issues + ["High process count"];
    }
    SystemIssuesInOrder(m);
    SystemStatusLastWins(m);
    h := Plain(status, issues);
  }

  /**
    A critical cpu reading followed by a memory warning leaves the section at
    "warning" although the critical cpu issue is reported.
  */
  lemma SystemHealthFacts(m: Sample)
    ensures m.cpuPercent > 90.0 && 80.0 < m.memoryPercent <= 90.0 && m.diskPercent <= 85.0 && m.processCount <= 1000 ==>
              SystemSection(m).status == "warning" && "Critical CPU usage" in SystemSection(m).issues
  {
    SystemIssuesInOrder(m);
    SystemStatusLastWins(m);
  }

  // ---------------------------------------------------------------- model health

  function DetailOf(e: Entry): ModelDetail {
    ModelDetail(e.status, e.name, e.size, e.capabilities)
  }

  /** The number of listed models whose status is "loaded". */
  function LoadedCount(es: seq<Entry>): (n: nat)
    ensures n <= |es|
  {
    if es == [] then 0
    else LoadedCount(es[..|es| - 1]) + (if es[|es| - 1].status == "loaded" then 1 else 0)
  }

  /** Whether some listed model reported the status "error". */
  function ErrorSeen(es: seq<Entry>): bool {
    if es == [] then false
    else ErrorSeen(es[..|es| - 1]) || es[|es| - 1].status == "error"
  }

  /** The issue one listed model contributes. */
  function EntryIssue(e: Entry): seq<string> {
    if e.status == "loaded" then []
    else if e.status == "error" then ["Model " + e.id + " in error state"]
    else if e.status == "not_downloaded" then ["Model " + e.id + " not downloaded"]
    else []
  }

  function EntryIssues(es: seq<Entry>): seq<string> {
    if es == [] then [] else EntryIssues(es[..|es| - 1]) + EntryIssue(es[|es| - 1])
  }

  /** The per-model details keyed by id; a repeated id keeps the later entry. */
  function Details(es: seq<Entry>): map<string, ModelDetail> {
    if es == [] then map[] else Details(es[..|es| - 1])[es[|es| - 1].id := DetailOf(es[|es| - 1])]
  }

  /** The details hold one entry per listed id. */
  lemma {:induction false} DetailsKeys(es: seq<Entry>)
    ensures Details(es).Keys == set i | 0 <= i < |es| :: es[i].id
  {
    if es != [] {
      var init := es[..|es| - 1];
      DetailsKeys(init);
      var ids := set i | 0 <= i < |es| :: es[i].id;
      var initIds := set i | 0 <= i < |init| :: init[i].id;
      assert ids == initIds + {es[|es| - 1].id} by {
        forall x | x in ids ensures x in initIds + {es[|es| - 1].id} {
          var i :| 0 <= i < |es| && es[i].id == x;
          if i < |es| - 1 { assert init[i] == es[i]; }
        }
        forall x | x in initIds ensures x in ids {
          var i :| 0 <= i < |init| && init[i].id == x;
          assert es[i] == init[i];
        }
      }
    }
  }

  /** The status after the listing: no models, none loaded, fewer than half loaded, an error, or healthy. */
  function ModelStatus(total: nat, healthy: nat, errorSeen: bool): string {
    if total == 0 then "not_available"
    else if healthy == 0 then "critical"
    else if (healthy as real) < (total as real) * 0.5 then "warning"
    else if errorSeen then "warning"
    else "healthy"
  }

  /** The issue the closing check appends. */
  function ClosingIssues(total: nat, healthy: nat): seq<string> {
    if total == 0 then ["No models available"]
    else if healthy == 0 then ["No healthy models available"]
    else if (healthy as real) < (total as real) * 0.5 then ["Less than 50% of models are healthy"]
    else []
  }

  /** The percentage of loaded models; 0 when there are none. */
  function HealthPercentage(total: nat, healthy: nat): (p: real)
    requires healthy <= total
    ensures 0.0 <= p <= 100.0
    ensures total > 0 ==> (p == 100.0 <==> healthy == total)
    ensures total > 0 ==> (p < 50.0 <==> (healthy as real) < (total as real) * 0.5)
  {
    if total > 0 then
      var t := total as real;
      var ratio := healthy as real / t;
      assert ratio * t == healthy as real;
      RatioBounds(ratio, healthy as real, t);
      RatioHalf(ratio, healthy as real, t);
      ratio * 100.0
    else 0.0
  }

  /** A ratio `r` of `h` to a positive `t`, with `0 <= h <= t`, lies in [0, 1] and is 1 iff `h == t`. */
  lemma RatioBounds(r: real, h: real, t: real)
    requires t > 0.0 && 0.0 <= h <= t && r * t == h
    ensures 0.0 <= r <= 1.0
    ensures r == 1.0 <==> h == t
  {
    ScaleOrder(r, 0.0, t);
    ScaleOrder(1.0, r, t);
    ScaleOrder(r, 1.0, t);
    assert 1.0 * t == t;
  }

  /** A ratio `r` of `h` to a positive `t` is below 1/2 iff `h` is below half of `t`. */
  lemma RatioHalf(r: real, h: real, t: real)
    requires t > 0.0 && r * t == h
    ensures r < 0.5 <==> h < t * 0.5
  {
    ScaleOrder(r, 0.5, t);
    assert 0.5 * t == t * 0.5;
  }

  /** Multiplying by a positive factor keeps the order of two reals. */
  lemma ScaleOrder(a: real, b: real, t: real)
    requires t > 0.0
    ensures a < b <==> a * t < b * t
  {
    if a < b {
      assert (b - a) * t > 0.0;
    } else {
      assert (a - b) * t >= 0.0;
    }
  }

  /**
    The model section for a listing: not_available exactly for an empty listing,
    otherwise critical, warning or healthy; the details are keyed by the listed
    ids, and the summary counts the listing and the loaded models in it.
  */
  function ModelSectionOf(es: seq<Entry>): (h: Section)
    ensures h.status in {"not_available", "critical", "warning", "healthy"}
    ensures h.status == "not_available" <==> es == []
    ensures h.models.Keys == set i | 0 <= i < |es| :: es[i].id
    ensures h.summary.Some? && h.summary.value.totalModels == |es|
    ensures h.summary.value.healthyModels <= h.summary.value.totalModels
  {
    DetailsKeys(es);
    var healthy := LoadedCount(es);
    Section(ModelStatus(|es|, healthy, ErrorSeen(es)),
            EntryIssues(es) + ClosingIssues(|es|, healthy),
            Details(es),
            Some(ModelSummary(|es|, healthy, HealthPercentage(|es|, healthy))))
  }

  /**
    `_check_model_health`: without a model manager, "not_available" with its one
    issue and no models; otherwise the section of the listing. A degraded section
    always carries the summary the recommendations read.
  */
  function ModelHealthSection(models: Option<seq<Entry>>): (h: Section)
    ensures h.status in {"not_available", "critical", "warning", "healthy"}
    ensures models.None? ==> h.status == "not_available" && h.issues == ["Model manager not available"] && h.models == map[]
    ensures Degraded(h.status) ==> h.summary.Some?
  {
    match models
    case None => Plain("not_available", ["Model manager not available"])
    case Some(es) => ModelSectionOf(es)
  }

  lemma ModelSnoc(es: seq<Entry>, i: nat)
    requires i < |es|
    ensures LoadedCount(es[..i + 1]) == LoadedCount(es[..i]) + (if es[i].status == "loaded" then 1 else 0)
    ensures ErrorSeen(es[..i + 1]) == (ErrorSeen(es[..i]) || es[i].status == "error")
    ensures EntryIssues(es[..i + 1]) == EntryIssues(es[..i]) + EntryIssue(es[i])
    ensures Details(es[..i + 1]) == Details(es[..i])[es[i].id := DetailOf(es[i])]
  {
    assert es[..i + 1][..i] == es[..i];
  }

  /** The loop of `_check_model_health`: count loaded models, flag errors and missing downloads. */
  method WalkListing(es: seq<Entry>) returns (healthy: nat, status: string, issues: seq<string>, details: map<string, ModelDetail>)
    ensures healthy == LoadedCount(es)
    ensures status == (if ErrorSeen(es) then "warning" else "healthy")
    ensures issues == EntryIssues(es)
    ensures details == Details(es)
  {
    status := "healthy";
    issues := [];
    details := map[];
    healthy := 0;
    for i := 0 to |es|
      invariant healthy == LoadedCount(es[..i])
      invariant status == (if ErrorSeen(es[..i]) then "warning" else "healthy")
      invariant issues == EntryIssues(es[..i])
      invariant details == Details(es[..i])
    {
      ModelSnoc(es, i);
      var e := es[i];
      details := details[e.id := ModelDetail(e.status, e.name, e.size, e.capabilities)];
      if e.status == "loaded" {
        healthy := healthy + 1;
      } else if e.status == "error" {
        status := "warning";
        issues := issues + ["Model " + e.id + " in error state"];
      } else if e.status == "not_downloaded" {
        issues := issues + ["Model " + e.id + " not downloaded"];
      }
    }
    assert es[..|es|] == es;
  }

  /**
    `_check_model_health`: without a model manager the section is "not_available";
    otherwise walk the listing, counting loaded models, flagging errors and missing
    downloads, then apply the closing check and the summary.
  */
  method CheckModelHealth(models: Option<seq<Entry>>) returns (h: Section)
    ensures h == ModelHealthSection(models)
  {
    if models.None? {
      return Plain("not_available", ["Model manager not available"]);
    }
    var es := models.value;
    var total := |es|;
    var healthy, status, issues, details := WalkListing(es);
    if total == 0 {
      status := "not_available";
      issues := issues + ["No models available"];
    } else if healthy == 0 {
      status := "critical";
      issues := issues + ["No healthy models available"];
    } else if (healthy as real) < (total as real) * 0.5 {
      status := "warning";
      issues := issues + ["Less than 50% of models are healthy"];
    }
    var percentage := if total > 0 then healthy as real / total as real * 100.0 else 0.0;
    assert percentage == HealthPercentage(total, healthy);
    h := Section(status, issues, details, Some(ModelSummary(total, healthy, percentage)));
  }

  /** No model is loaded exactly when the loaded count is zero; all are loaded exactly when it is the total. */
  lemma {:induction false} LoadedCountMeaning(es: seq<Entry>)
    ensures LoadedCount(es) == 0 <==> forall i :: 0 <= i < |es| ==> es[i].status != "loaded"
    ensures LoadedCount(es) == |es| <==> forall i :: 0 <= i < |es| ==> es[i].status == "loaded"
  {
    if es != [] {
      var init := es[..|es| - 1];
      LoadedCountMeaning(init);
      assert forall i :: 0 <= i < |init| ==> init[i] == es[i];
    }
  }

  /** The error flag is set exactly when some listed model is in the "error" state. */
  lemma {:induction false} ErrorSeenMeaning(es: seq<Entry>)
    ensures ErrorSeen(es) <==> exists i :: 0 <= i < |es| && es[i].status == "error"
  {
    if es != [] {
      var init := es[..|es| - 1];
      ErrorSeenMeaning(init);
      if ErrorSeen(init) {
        var i :| 0 <= i < |init| && init[i].status == "error";
        assert es[i] == init[i];
      }
      if exists i :: 0 <= i < |es| && es[i].status == "error" {
        var i :| 0 <= i < |es| && es[i].status == "error";
        if i < |init| {
          assert init[i] == es[i];
        }
      }
    }
  }

  /**
    The model status: not available iff nothing is listed, critical iff models are
    listed but none is loaded, warning iff some are loaded but fewer than half or
    one is in error, healthy otherwise.
  */
  lemma ModelStatusMeaning(es: seq<Entry>)
    ensures var status := ModelSectionOf(es).status;
      && (status == "not_available" <==> es == [])
      && (status == "critical" <==> es != [] && forall i :: 0 <= i < |es| ==> es[i].status != "loaded")
      && (status == "warning" <==>
            LoadedCount(es) > 0 &&
            (2 * LoadedCount(es) < |es| || exists i :: 0 <= i < |es| && es[i].status == "error"))
      && (status == "healthy" <==>
            LoadedCount(es) > 0 && 2 * LoadedCount(es) >= |es| &&
            forall i :: 0 <= i < |es| ==> es[i].status != "error")
  {
    LoadedCountMeaning(es);
    ErrorSeenMeaning(es);
  }

  /**
    A listing made by the model manager never reports "error" (its statuses are
    loaded, downloaded or not downloaded), so such a listing never produces an
    error-state issue and its status is never set by the error branch.
  */
  lemma {:induction false} ListingHasNoErrors(es: seq<Entry>)
    requires forall i :: 0 <= i < |es| ==> es[i].status == StatusName(es[i].isLoaded, es[i].status == "downloaded")
    ensures !ErrorSeen(es)
    ensures ModelSectionOf(es).status == ModelStatus(|es|, LoadedCount(es), false)
  {
    if es != [] {
      var init := es[..|es| - 1];
      assert forall i :: 0 <= i < |init| ==> init[i] == es[i];
      ListingHasNoErrors(init);
    }
  }

  // ---------------------------------------------------------------- performance health

  /** The temperature lookup as written: the key "temperature", which the cpu dictionary never has. */
  function CpuTemperatureAsWritten(r: Resources): Option<real> {
    if r.Resources? && "temperature" in r.cpu then r.cpu["temperature"] else None
  }

  /** The temperature lookup under the key the resource report uses. */
  function CpuTemperature(r: Resources): Option<real> {
    if r.Resources? && CpuTemperatureKey in r.cpu then r.cpu[CpuTemperatureKey] else None
  }

  /** `cpu_temp and cpu_temp > 80`: a missing reading never fires. */
  predicate TooHot(t: Option<real>) {
    t.Some? && t.value > 80.0
  }

  /** The temperature issue, with the reading rendered by `show` and the unit as the source spells it. */
  function TemperatureIssue(t: Option<real>, show: real -> string): string {
    if t.Some? then "High CPU temperature: " + show(t.value) + "\U{00C2}\U{00B0}C" else ""
  }

  /** The checks of the performance section, in order, reading the temperature through `temperature`. */
  function PerformanceRulesWith(r: Resources, temperature: Option<real>, show: real -> string): seq<Rule> {
    [ Rule(TooHot(temperature), "warning", TemperatureIssue(temperature, show)),
      Rule(r.Resources? && r.memory.percent > 85.0, "warning", "High memory pressure"),
      Rule(r.Resources? && r.disk.percent > 90.0, "warning", "High disk usage affecting performance") ]
  }

  /**
    The performance section for a given temperature reading: healthy exactly when
    no check fired, "warning" otherwise, with one issue per check that fired.
  */
  function PerformanceSectionWith(r: Resources, temperature: Option<real>, show: real -> string): (h: Section)
    ensures h.status in {"healthy", "warning"}
    ensures h.status == "healthy" <==> h.issues == []
    ensures |h.issues| <= 3
  {
    PerformanceIssuesInOrder(r, temperature, show);
    var rules := PerformanceRulesWith(r, temperature, show);
    Plain(FinalStatus(rules, "healthy"), Issues(rules))
  }

  /** The performance section as `_check_performance_health` computes it, looking the temperature up under "temperature". */
  function PerformanceSectionAsWritten(r: Resources, show: real -> string): Section {
    PerformanceSectionWith(r, CpuTemperatureAsWritten(r), show)
  }

  /** The performance section with the temperature read under the key the resource report uses. */
  function PerformanceSection(r: Resources, show: real -> string): Section {
    PerformanceSectionWith(r, CpuTemperature(r), show)
  }

  /** The performance issues written out: temperature, memory pressure, disk, in that order. */
  lemma PerformanceIssuesInOrder(r: Resources, temperature: Option<real>, show: real -> string)
    ensures var rules := PerformanceRulesWith(r, temperature, show);
      && Issues(rules)
         == (if TooHot(temperature) then [TemperatureIssue(temperature, show)] else [])
          + (if r.Resources? && r.memory.percent > 85.0 then ["High memory pressure"] else [])
          + (if r.Resources? && r.disk.percent > 90.0 then ["High disk usage affecting performance"] else [])
      && FinalStatus(rules, "healthy")
         == if TooHot(temperature) || (r.Resources? && (r.memory.percent > 85.0 || r.disk.percent > 90.0))
            then "warning" else "healthy"
  {
    var rules := PerformanceRulesWith(r, temperature, show);
    assert rules[..0] == [];
    RulesSnoc(rules, 0, "healthy");
    RulesSnoc(rules, 1, "healthy");
    RulesSnoc(rules, 2, "healthy");
    assert rules[..3] == rules;
  }

  /**
    The steps of `_check_performance_health` for a given temperature reading: start
    healthy; a hot cpu, memory pressure above 85 or disk above 90 each set
    "warning" and add an issue.
  */
  method AssessPerformance(r: Resources, temperature: Option<real>, show: real -> string) returns (h: Section)
    ensures h == PerformanceSectionWith(r, temperature, show)
  {
    var status := "healthy";
    var issues: seq<string> := [];
    if temperature.Some? && temperature.value > 80.0 {
      status := "warning";
      issues := issues + ["High CPU temperature: " + show(temperature.value) + "\U{00C2}\U{00B0}C"];
    }
    if r.Resources? {
      if r.memory.percent > 85.0 {
        status := "warning";
        issues := issues + ["High memory pressure"];
      }
      if r.disk.percent > 90.0 {
        status := "warning";
        issues := issues + ["High disk usage affecting performance"];
      }
    }
    PerformanceIssuesInOrder(r, temperature, show);
    h := Plain(status, issues);
  }

  /** `_check_performance_health` as written: the temperature is looked up under "temperature". */
  method CheckPerformanceHealthAsWritten(r: Resources, show: real -> string) returns (h: Section)
    ensures h == PerformanceSectionAsWritten(r, show)
  {
    h := AssessPerformance(r, CpuTemperatureAsWritten(r), show);
  }

  /** `_check_performance_health` with the temperature looked up under the key the resource report uses. */
  method CheckPerformanceHealth(r: Resources, show: real -> string) returns (h: Section)
    ensures h == PerformanceSection(r, show)
  {
    h := AssessPerformance(r, CpuTemperature(r), show);
  }

  /**
    With the corrected lookup, the performance section is "warning" exactly when
    the cpu is hot, memory pressure exceeds 85 or disk use exceeds 90, and
    "healthy" otherwise; there is one issue per check that fired.
  */
  lemma PerformanceHealthFacts(r: Resources, show: real -> string)
    ensures var h := PerformanceSection(r, show);
      && (h.status == "warning" <==>
            TooHot(CpuTemperature(r)) || (r.Resources? && (r.memory.percent > 85.0 || r.disk.percent > 90.0)))
      && (h.status == "healthy" <==> h.issues == [])
      && |h.issues| <= 3
      && (r.Resources? && r.memory.percent > 85.0 ==> "High memory pressure" in h.issues)
  {
    PerformanceIssuesInOrder(r, CpuTemperature(r), show);
  }

  /**
    The lookup as written never finds a temperature in a report built by the
    performance monitor, so its temperature check cannot fire; the corrected lookup
    finds the reading. For a report with a 95-degree reading and calm memory and disk,
    the section as written is "healthy" while the corrected one is "warning".
  */
  lemma TemperatureKeyMismatch(s: Sample, t: Option<real>, show: real -> string)
    ensures CpuTemperatureAsWritten(SystemResources(s, t)) == None
    ensures CpuTemperature(SystemResources(s, t)) == t
    ensures t == Some(95.0) && s.memoryPercent <= 85.0 && s.diskPercent <= 90.0 ==>
              && PerformanceSectionAsWritten(SystemResources(s, t), show).status == "healthy"
              && PerformanceSection(SystemResources(s, t), show).status == "warning"
  {
    var r := SystemResources(s, t);
    assert "temperature" != CpuTemperatureKey;
    assert "temperature" !in r.cpu;
    PerformanceIssuesInOrder(r, CpuTemperatureAsWritten(r), show);
    PerformanceIssuesInOrder(r, CpuTemperature(r), show);
  }

  /**
    As written, a report built by the performance monitor is judged on memory and
    disk alone: whatever the temperature reading, it adds no issue.
  */
  lemma MonitorReportAsWritten(s: Sample, t: Option<real>, show: real -> string)
    ensures var h := PerformanceSectionAsWritten(SystemResources(s, t), show);
      && h.issues == (if s.memoryPercent > 85.0 then ["High memory pressure"] else [])
                   + (if s.diskPercent > 90.0 then ["High disk usage affecting performance"] else [])
      && (h.status == "warning" <==> s.memoryPercent > 85.0 || s.diskPercent > 90.0)
  {
    var r := SystemResources(s, t);
    assert "temperature" != CpuTemperatureKey;
    assert "temperature" !in r.cpu;
    PerformanceIssuesInOrder(r, CpuTemperatureAsWritten(r), show);
  }

  // ---------------------------------------------------------------- overall status

  /** The priority table, in its declaration order. */
  const StatusPriorities: seq<(string, nat)> :=
    [("critical", 4), ("error", 3), ("warning", 2), ("not_available", 1), ("healthy", 0)]

  /** `table.get(key, 0)`: the priority of the first entry named `key`, 0 when none is. */
  function Lookup(table: seq<(string, nat)>, key: string): nat {
    if table == [] then 0
    else if table[0].0 == key then table[0].1
    else Lookup(table[1..], key)
  }

  /** A status's priority; any status outside the table ranks like "healthy". */
  function Priority(status: string): (p: nat)
    ensures p <= 4
    ensures p == 4 <==> status == "critical"
    ensures p == 3 <==> status == "error"
    ensures p == 2 <==> status == "warning"
    ensures p == 1 <==> status == "not_available"
    ensures p == 0 <==> status !in {"critical", "error", "warning", "not_available"}
  {
    var t := StatusPriorities;
    assert Lookup(t[4..], status) == 0 by {
      assert t[4..][1..] == [];
    }
    assert Lookup(t[3..], status) == if status == "not_available" then 1 else 0 by {
      assert t[3..][1..] == t[4..];
    }
    assert Lookup(t[2..], status) == if status == "warning" then 2 else Lookup(t[3..], status) by {
      assert t[2..][1..] == t[3..];
    }
    assert Lookup(t[1..], status) == if status == "error" then 3 else Lookup(t[2..], status) by {
      assert t[1..][1..] == t[2..];
    }
    Lookup(t, status)
  }

  /** The highest priority among `statuses`, 0 for none. */
  function MaxPriority(statuses: seq<string>): (p: nat)
    ensures forall i :: 0 <= i < |statuses| ==> Priority(statuses[i]) <= p
    ensures p == 0 || exists i :: 0 <= i < |statuses| && Priority(statuses[i]) == p
  {
    if statuses == [] then 0
    else
      var init := statuses[..|statuses| - 1];
      var q := Priority(statuses[|statuses| - 1]);
      var m := MaxPriority(init);
      assert forall i :: 0 <= i < |init| ==> init[i] == statuses[i];
      if q > m then q else m
  }

  /** The first status in the table with priority `p`, "unknown" when there is none. */
  function NameOf(table: seq<(string, nat)>, p: nat): string {
    if table == [] then "unknown"
    else if table[0].1 == p then table[0].0
    else NameOf(table[1..], p)
  }

  /** The table's name for each priority: the table has one status per priority 0 to 4. */
  lemma NameOfTable(p: nat)
    ensures NameOf(StatusPriorities, p) ==
      if p == 4 then "critical" else if p == 3 then "error" else if p == 2 then "warning"
      else if p == 1 then "not_available" else if p == 0 then "healthy" else "unknown"
  {
    var t: seq<(string, nat)> := StatusPriorities;
    assert NameOf(t[4..], p) == if p == 0 then "healthy" else "unknown" by {
      assert |t[4..][1..]| == 0;
    }
    assert NameOf(t[3..], p) == if p == 1 then "not_available" else NameOf(t[4..], p) by {
      assert t[3..][1..] == t[4..];
    }
    assert NameOf(t[2..], p) == if p == 2 then "warning" else NameOf(t[3..], p) by {
      assert t[2..][1..] == t[3..];
    }
    assert NameOf(t[1..], p) == if p == 3 then "error" else NameOf(t[2..], p) by {
      assert t[1..][1..] == t[2..];
    }
  }

  /**
    The overall status of a report: the table's name for the highest priority
    among the sections, which is always one of the five table names.
  */
  function OverallStatus(statuses: seq<string>): (r: string)
    ensures r in {"critical", "error", "warning", "not_available", "healthy"}
  {
    NameOfTable(MaxPriority(statuses));
    NameOf(StatusPriorities, MaxPriority(statuses))
  }

  /**
    The overall status ranks highest among the sections, with critical > error >
    warning > not_available > healthy and unrecognised statuses counting as
    healthy; it is one of the sections' statuses unless it is "healthy", and it is
    never "unknown".
  */
  lemma OverallStatusMeaning(statuses: seq<string>)
    ensures var r := OverallStatus(statuses);
      && r in {"critical", "error", "warning", "not_available", "healthy"}
      && Priority(r) == MaxPriority(statuses)
      && (forall i :: 0 <= i < |statuses| ==> Priority(statuses[i]) <= Priority(r))
      && (r == "healthy" || r in statuses)
      && (r == "healthy" <==> forall i :: 0 <= i < |statuses| ==> Priority(statuses[i]) == 0)
  {
    var p := MaxPriority(statuses);
    NameOfTable(p);
    if p > 0 {
      var i :| 0 <= i < |statuses| && Priority(statuses[i]) == p;
      assert statuses[i] == OverallStatus(statuses);
    }
  }

  /**
    `_calculate_overall_status`: keep the highest priority seen over the four
    section statuses, then return the first table entry with that priority
    ("unknown" only if none has it).
  */
  method CalculateOverallStatus(system: Section, model: Section, performance: Section, service: Section)
    returns (r: string)
    ensures r == OverallStatus([system.status, model.status, performance.status, service.status])
    ensures r != "unknown"
  {
    var statuses := [system.status, model.status, performance.status, service.status];
    var highest := HighestPriority(statuses);
    r := StatusWithPriority(highest);
    OverallStatusMeaning(statuses);
  }

  /** The first loop of `_calculate_overall_status`: the running maximum of the priorities. */
  method HighestPriority(statuses: seq<string>) returns (highest: nat)
    ensures highest == MaxPriority(statuses)
  {
    highest := 0;
    for i := 0 to |statuses|
      invariant highest == MaxPriority(statuses[..i])
    {
      assert statuses[..i + 1][..i] == statuses[..i];
      var priority := Lookup(StatusPriorities, statuses[i]);
      if priority > highest {
        highest := priority;
      }
    }
    assert statuses[..|statuses|] == statuses;
  }

  /** The second loop: the first table entry with the given priority, "unknown" when there is none. */
  method StatusWithPriority(highest: nat) returns (r: string)
    ensures r == NameOf(StatusPriorities, highest)
  {
    var table := StatusPriorities;
    r := "unknown";
    var found := false;
    var j := 0;
    while j < |table| && !found
      invariant 0 <= j <= |table|
      invariant found ==> r == NameOf(table, highest)
      invariant !found ==> r == "unknown" && NameOf(table, highest) == NameOf(table[j..], highest)
    {
      assert table[j..][1..] == table[j + 1..];
      if table[j].1 == highest {
        r := table[j].0;
        found := true;
      }
      j := j + 1;
    }
  }

  // ---------------------------------------------------------------- recommendations

  const CpuAdvice := "Consider closing unnecessary applications or processes to reduce CPU usage"
  const MemoryAdvice := "Free up memory by closing unused applications or increasing system RAM"
  const DiskAdvice := "Clean up disk space or consider expanding storage capacity"
  const MoreModelsAdvice := "Download and load more AI models to improve service capabilities"
  const ModelLogsAdvice := "Check model logs for errors and consider reloading problematic models"
  const OptimizeAdvice := "Optimize system performance by addressing resource bottlenecks"
  const CoolingAdvice := "Improve system cooling to reduce CPU temperature"
  const RestartAdvice := "Restart the AI service to free up memory"
  const ConnectivityAdvice := "Check system resources and network connectivity"
  const OptimalNote := "System is running optimally. Continue regular monitoring."
  const AutomationNote := "Consider setting up automated health checks for early issue detection."

  /** Some issue contains `word`. */
  predicate Mentions(issues: seq<string>, word: string) {
    exists i :: 0 <= i < |issues| && Contains(issues[i], word)
  }

  predicate Degraded(status: string) {
    status == "warning" || status == "critical"
  }

  function IfMentions(issues: seq<string>, word: string, advice: string): seq<string> {
    if Mentions(issues, word) then [advice] else []
  }

  /**
    Advice for a degraded system section, one line per resource its issues
    mention; none for a healthy section.
  */
  function SystemAdvice(h: Section): (r: seq<string>)
    ensures |r| <= 3
  {
    if Degraded(h.status) then
      IfMentions(h.issues, "CPU", CpuAdvice) + IfMentions(h.issues, "memory", MemoryAdvice) + IfMentions(h.issues, "disk", DiskAdvice)
    else []
  }

  /** Advice for a degraded model section: more models when fewer than half are healthy, and always the logs. */
  function ModelAdvice(h: Section): (r: seq<string>)
    requires Degraded(h.status) ==> h.summary.Some?
    ensures |r| <= 2
  {
    if Degraded(h.status) then
      (if h.summary.value.healthPercentage < 50.0 then [MoreModelsAdvice] else []) + [ModelLogsAdvice]
    else []
  }

  /** Advice for a performance section at "warning", with cooling when an issue mentions the temperature. */
  function PerformanceAdvice(h: Section): (r: seq<string>)
    ensures |r| <= 2
  {
    if h.status == "warning" then [OptimizeAdvice] + IfMentions(h.issues, "temperature", CoolingAdvice) else []
  }

  /** Advice for a service section at "warning", by what its issues mention. */
  function ServiceAdvice(h: Section): (r: seq<string>)
    ensures |r| <= 2
  {
    if h.status == "warning" then
      IfMentions(h.issues, "memory", RestartAdvice) + IfMentions(h.issues, "response", ConnectivityAdvice)
    else []
  }

  /** When each line of `SystemAdvice` appears. */
  lemma SystemAdviceMeaning(h: Section)
    ensures !Degraded(h.status) ==> SystemAdvice(h) == []
    ensures CpuAdvice in SystemAdvice(h) <==> Degraded(h.status) && Mentions(h.issues, "CPU")
    ensures MemoryAdvice in SystemAdvice(h) <==> Degraded(h.status) && Mentions(h.issues, "memory")
    ensures DiskAdvice in SystemAdvice(h) <==> Degraded(h.status) && Mentions(h.issues, "disk")
  {
  }

  /** When each line of `ModelAdvice` appears. */
  lemma ModelAdviceMeaning(h: Section)
    requires Degraded(h.status) ==> h.summary.Some?
    ensures ModelAdvice(h) != [] <==> Degraded(h.status)
    ensures ModelLogsAdvice in ModelAdvice(h) <==> Degraded(h.status)
    ensures MoreModelsAdvice in ModelAdvice(h) <==> Degraded(h.status) && h.summary.value.healthPercentage < 50.0
  {
  }

  /** When each line of `PerformanceAdvice` appears. */
  lemma PerformanceAdviceMeaning(h: Section)
    ensures OptimizeAdvice in PerformanceAdvice(h) <==> h.status == "warning"
    ensures PerformanceAdvice(h) != [] <==> h.status == "warning"
    ensures CoolingAdvice in PerformanceAdvice(h) <==> h.status == "warning" && Mentions(h.issues, "temperature")
  {
  }

  /** When each line of `ServiceAdvice` appears. */
  lemma ServiceAdviceMeaning(h: Section)
    ensures h.status != "warning" ==> ServiceAdvice(h) == []
    ensures RestartAdvice in ServiceAdvice(h) <==> h.status == "warning" && Mentions(h.issues, "memory")
    ensures ConnectivityAdvice in ServiceAdvice(h) <==> h.status == "warning" && Mentions(h.issues, "response")
  {
  }

  predicate AllHealthy(system: Section, model: Section, performance: Section, service: Section) {
    system.status == "healthy" && model.status == "healthy" && performance.status == "healthy" && service.status == "healthy"
  }

  /**
    `_generate_recommendations`: system, model, performance and service advice in
    that order, then the two general notes when every section is healthy.
  */
  function GenerateRecommendations(system: Section, model: Section, performance: Section, service: Section): (r: seq<string>)
    requires Degraded(model.status) ==> model.summary.Some?
    ensures |r| <= 9
  {
    SystemAdvice(system) + ModelAdvice(model) + PerformanceAdvice(performance) + ServiceAdvice(service)
      + (if AllHealthy(system, model, performance, service) then [OptimalNote, AutomationNote] else [])
  }

  /**
    The general notes appear exactly when all four sections are healthy, and then
    they are the whole list of recommendations.
  */
  lemma GeneralNotesWhenHealthy(system: Section, model: Section, performance: Section, service: Section)
    requires Degraded(model.status) ==> model.summary.Some?
    ensures var r := GenerateRecommendations(system, model, performance, service);
      && (AllHealthy(system, model, performance, service) ==> r == [OptimalNote, AutomationNote])
      && (OptimalNote in r <==> AllHealthy(system, model, performance, service))
  {
    assert OptimalNote !in SystemAdvice(system);
    assert OptimalNote !in ModelAdvice(model);
    assert OptimalNote !in PerformanceAdvice(performance);
    assert OptimalNote !in ServiceAdvice(service);
  }

  /** The model-logs advice appears exactly when the model section is degraded. */
  lemma ModelLogsWhenDegraded(system: Section, model: Section, performance: Section, service: Section)
    requires Degraded(model.status) ==> model.summary.Some?
    ensures ModelLogsAdvice in GenerateRecommendations(system, model, performance, service) <==> Degraded(model.status)
  {
    assert ModelLogsAdvice !in SystemAdvice(system);
    assert ModelLogsAdvice !in PerformanceAdvice(performance);
    assert ModelLogsAdvice !in ServiceAdvice(service);
    assert ModelLogsAdvice !in [OptimalNote, AutomationNote];
  }

  /** An issue that was reported and contains `word` makes the issues mention it. */
  lemma MentionedBy(issues: seq<string>, issue: string, a: string, word: string, b: string)
    requires issue in issues && issue == a + word + b
    ensures Mentions(issues, word)
  {
    ContainsMiddle(a, word, b);
  }

  /** A system rule that fires with an issue containing `word` makes the section degraded and its issues mention `word`. */
  lemma SystemRuleMentioned(m: Sample, k: nat, a: string, word: string, b: string)
    requires k < |SystemRules(m)| && SystemRules(m)[k].fires && SystemRules(m)[k].issue == a + word + b
    ensures Degraded(SystemSection(m).status) && Mentions(SystemSection(m).issues, word)
  {
    var rules := SystemRules(m);
    IssuesMembers(rules, rules[k].issue);
    SystemHealthFacts(m);
    MentionedBy(SystemSection(m).issues, rules[k].issue, a, word, b);
  }

  /** CPU use over its warning threshold brings the CPU advice. */
  lemma CpuAdviceFollowsReading(m: Sample)
    requires m.cpuPercent > 75.0
    ensures CpuAdvice in SystemAdvice(SystemSection(m))
  {
    if m.cpuPercent > 90.0 {
      SystemRuleMentioned(m, 0, "Critical ", "CPU", " usage");
    } else {
      SystemRuleMentioned(m, 1, "High ", "CPU", " usage");
    }
  }

  /** Memory use over its warning threshold brings the memory advice. */
  lemma MemoryAdviceFollowsReading(m: Sample)
    requires m.memoryPercent > 80.0
    ensures MemoryAdvice in SystemAdvice(SystemSection(m))
  {
    if m.memoryPercent > 90.0 {
      SystemRuleMentioned(m, 2, "Critical ", "memory", " usage");
    } else {
      SystemRuleMentioned(m, 3, "High ", "memory", " usage");
    }
  }

  /** Disk use over its warning threshold brings the disk advice. */
  lemma DiskAdviceFollowsReading(m: Sample)
    requires m.diskPercent > 85.0
    ensures DiskAdvice in SystemAdvice(SystemSection(m))
  {
    if m.diskPercent > 95.0 {
      SystemRuleMentioned(m, 4, "Critical ", "disk", " usage");
    } else {
      SystemRuleMentioned(m, 5, "High ", "disk", " usage");
    }
  }

  /** With only the process count over its threshold, the section is a warning with that one issue. */
  lemma ProcessCountOnly(m: Sample)
    requires m.cpuPercent <= 75.0 && m.memoryPercent <= 80.0 && m.diskPercent <= 85.0 && m.processCount > 1000
    ensures SystemSection(m) == Plain("warning", ["High process count"])
  {
    SystemIssuesInOrder(m);
    SystemStatusLastWins(m);
  }

  /**
    A sample whose only problem is the process count leaves the system section at
    "warning" with no system advice at all: the issue names no resource the advice
    looks for.
  */
  lemma ProcessCountGivesNoAdvice(m: Sample)
    requires m.cpuPercent <= 75.0 && m.memoryPercent <= 80.0 && m.diskPercent <= 85.0 && m.processCount > 1000
    ensures SystemSection(m).status == "warning"
    ensures SystemAdvice(SystemSection(m)) == []
  {
    ProcessCountOnly(m);
    ProcessWarningNoAdvice();
  }

  /** The process-count issue names none of CPU, memory or disk. */
  lemma ProcessWarningNoAdvice()
    ensures SystemAdvice(Plain("warning", ["High process count"])) == []
  {
    var issues := ["High process count"];
    NotContainedWithoutFirst(issues[0], "CPU");
    NotContainedWithoutFirst(issues[0], "memory");
    NotContainedWithoutFirst(issues[0], "disk");
  }

  /** A hot CPU, read through the corrected key, brings both the optimisation and the cooling advice. */
  lemma CoolingAdviceFollowsTemperature(r: Resources, show: real -> string)
    requires TooHot(CpuTemperature(r))
    ensures var advice := PerformanceAdvice(PerformanceSection(r, show));
      OptimizeAdvice in advice && CoolingAdvice in advice
  {
    var h := PerformanceSection(r, show);
    var t := CpuTemperature(r);
    var issue := TemperatureIssue(t, show);
    var rest := ": " + show(t.value) + "\U{00C2}\U{00B0}C";
    assert issue == "High CPU " + "temperature" + rest;
    PerformanceIssuesInOrder(r, t, show);
    assert h.status == "warning";
    assert h.issues[0] == issue;
    MentionedBy(h.issues, issue, "High CPU ", "temperature", rest);
  }

  /** Below half, counted in integers or in reals, is the same thing. */
  lemma BelowHalf(healthy: nat, total: nat)
    ensures (healthy as real) < (total as real) * 0.5 <==> 2 * healthy < total
  {
    assert (2 * healthy) as real == 2.0 * (healthy as real);
    assert (total as real) * 0.5 * 2.0 == total as real;
  }

  /** The health percentage is below 50 exactly when fewer than half of the models are loaded. */
  lemma PercentageBelowHalf(total: nat, healthy: nat)
    requires healthy <= total && total > 0
    ensures HealthPercentage(total, healthy) < 50.0 <==> 2 * healthy < total
  {
    BelowHalf(healthy, total);
  }

  /**
    A degraded model section whose summary counts `healthy` of `total` models asks
    for more models exactly when fewer than half are loaded, and always for the logs.
  */
  lemma ModelAdviceFollowsSummary(h: Section, total: nat, healthy: nat)
    requires Degraded(h.status) && healthy <= total && total > 0
    requires h.summary == Some(ModelSummary(total, healthy, HealthPercentage(total, healthy)))
    ensures MoreModelsAdvice in ModelAdvice(h) <==> 2 * healthy < total
    ensures ModelLogsAdvice in ModelAdvice(h)
  {
    PercentageBelowHalf(total, healthy);
    assert MoreModelsAdvice != ModelLogsAdvice;
  }

  // ---------------------------------------------------------------- the checker

  /** A health report; the timestamp is not modelled. */
  datatype Report = Report(
    status: string,
    uptimeSeconds: real,
    system: Section,
    model: Section,
    performance: Section,
    service: Section,
    recommendations: seq<string>)

  /** The number of reports the checker keeps. */
  const MaxReports: nat := 100

  /** The reply to a request for a check type the checker does not know. */
  function UnknownCheck(checkType: string): Section {
    Plain("error", ["Unknown check type: " + checkType])
  }

  class Checker {
    var history: seq<Report>

    /** The history never exceeds its bound. */
    predicate Valid()
      reads this
    {
      |history| <= MaxReports
    }

    constructor()
      ensures Valid() && history == []
    {
      history := [];
    }

    /**
      `check_health`: the four sections, the overall status ranked over them, the
      recommendations drawn from them, and the report appended to the history, which
      keeps its newest 100 reports.
    */
    method CheckHealth(metrics: Sample, models: Option<seq<Entry>>, resources: Resources, service: Section,
                       uptime: real, show: real -> string) returns (report: Report)
      requires Valid()
      modifies this
      ensures Valid()
      ensures report.system == SystemSection(metrics)
      ensures report.model == ModelHealthSection(models)
      ensures report.performance == PerformanceSectionAsWritten(resources, show)
      ensures report.service == service && report.uptimeSeconds == uptime
      ensures report.status == OverallStatus([report.system.status, report.model.status,
                                              report.performance.status, service.status])
      ensures report.recommendations == GenerateRecommendations(report.system, report.model, report.performance, service)
      ensures history == KeepLast(old(history) + [report], MaxReports)
      ensures history[|history| - 1] == report
      ensures history == if |old(history)| < MaxReports then old(history) + [report] else old(history)[1..] + [report]
    {
      var system := CheckSystemHealth(metrics);
      var model := CheckModelHealth(models);
      var performance := CheckPerformanceHealthAsWritten(resources, show);
      var overall := CalculateOverallStatus(system, model, performance, service);
      report := Report(overall, uptime, system, model, performance, service,
                       GenerateRecommendations(system, model, performance, service));
      AppendBounded(history, report, MaxReports);
      history := history + [report];
      if |history| > MaxReports {
        history := history[|history| - MaxReports..];
      }
    }

    /**
      `get_health_history`: a suffix of the history, the newest `limit` reports for a
      positive limit and all of them without a limit or with a zero one.
    */
    function GetHealthHistory(limit: Option<int>): (r: seq<Report>)
      reads this
      ensures |r| <= |history| && r == history[|history| - |r|..]
      ensures limit.None? || limit.value == 0 ==> r == history
      ensures limit.Some? && limit.value > 0 ==> |r| == (if limit.value < |history| then limit.value else |history|)
    {
      Recent(history, limit)
    }

    /**
      `run_specific_check`: one section by name ("system", "models", "performance",
      "service"), or an error section naming the unknown type.
    */
    method RunSpecificCheck(checkType: string, metrics: Sample, models: Option<seq<Entry>>, resources: Resources,
                            service: Section, show: real -> string) returns (h: Section)
      ensures checkType == "system" ==> h == SystemSection(metrics)
      ensures checkType == "models" ==> h == ModelHealthSection(models)
      ensures checkType == "performance" ==> h == PerformanceSectionAsWritten(resources, show)
      ensures checkType == "service" ==> h == service
      ensures checkType !in {"system", "models", "performance", "service"} ==>
                h.status == "error" && h.issues == ["Unknown check type: " + checkType]
    {
      if checkType == "system" {
        h := CheckSystemHealth(metrics);
      } else if checkType == "models" {
        h := CheckModelHealth(models);
      } else if checkType == "performance" {
        h := CheckPerformanceHealthAsWritten(resources, show);
      } else if checkType == "service" {
        h := service;
      } else {
        h := UnknownCheck(checkType);
      }
    }

    /** `cleanup`: the history is emptied. */
    method Cleanup()
      modifies this
      ensures Valid() && history == []
    {
      history := [];
    }
  }

  /**
    The status of a report is never "unknown"; a missing model manager keeps it
    from being healthy, and a critical system section makes it critical.
  */
  lemma ReportStatusFacts(metrics: Sample, models: Option<seq<Entry>>, resources: Resources, service: Section, show: real -> string)
    ensures var statuses := [SystemSection(metrics).status, ModelHealthSection(models).status,
                             PerformanceSectionAsWritten(resources, show).status, service.status];
      && OverallStatus(statuses) != "unknown"
      && (models.None? ==> OverallStatus(statuses) != "healthy")
      && (SystemSection(metrics).status == "critical" ==> OverallStatus(statuses) == "critical")
  {
    var statuses := [SystemSection(metrics).status, ModelHealthSection(models).status,
                     PerformanceSectionAsWritten(resources, show).status, service.status];
    OverallStatusMeaning(statuses);
    assert Priority(statuses[0]) <= Priority(OverallStatus(statuses));
    assert Priority(statuses[1]) <= Priority(OverallStatus(statuses));
  }
}
