/**
 * The cAdvisor checks: its health endpoint, how Prometheus scrapes it (first
 * matching target), the declared `cadvisor` job in `prometheus.yml` (first
 * matching job and its shape), and the query verdicts for metric
 * availability, label presence and dropped high-cardinality metrics.
 */
module CadvisorChecks {

  import opened Values
  import PrometheusApi
  import Text

  /** The job name the cAdvisor target and scrape job carry. */
  const JobName: string := "cadvisor"

  /** The address the declared job must list among the targets of its first static config. */
  const TargetAddress: string := "cadvisor:8080"

  /** The metrics the relabelling rules drop; a query for each must return no series. */
  const DroppedMetrics: seq<string> := [
    "container_network_tcp_usage_total",
    "container_network_udp_usage_total",
    "container_tasks_state",
    "container_cpu_load_average_10s"
  ]

  /** `/healthz` answers 200 and its text, stripped of surrounding whitespace, is "ok". */
  function HealthPasses(resp: Response): (ok: bool)
    ensures ok <==>
      resp.status == 200 &&
      exists i :: 0 <= i <= |resp.text| - 2 && resp.text[i..i + 2] == "ok"
                  && Text.AllSpace(resp.text[..i]) && Text.AllSpace(resp.text[i + 2..])
  {
    Text.StripIsExact(resp.text, "ok");
    resp.status == 200 && Text.Strip(resp.text) == "ok"
  }

  /**
   * `target.get("labels", {}).get("job") == "cadvisor"`. A target without
   * labels, or whose labels have no job, is simply not a match; only a target
   * or a labels value that is not a mapping raises.
   */
  function IsCadvisorTarget(target: Value): (r: Option<bool>)
    ensures r.None? <==> !target.Map? || ("labels" in target.fields && !target.fields["labels"].Map?)
    ensures r == Some(true) <==>
      && target.Map? && "labels" in target.fields && target.fields["labels"].Map?
      && "job" in target.fields["labels"].fields
      && target.fields["labels"].fields["job"] == Str(JobName)
    ensures target.Map? && "labels" !in target.fields ==> r == Some(false)
  {
    var labels :- GetOr(target, "labels", Map(map[]));
    var job :- Get(labels, "job");
    Some(job == Str(JobName))
  }

  /**
   * The loop over the active targets and the health assertion after it: some
   * target is a cadvisor match, every target before it is a non-match, and
   * its health is "up".
   */
  function FirstCadvisorTargetUp(targets: seq<Value>): (ok: bool)
    ensures ok <==>
      exists i :: 0 <= i < |targets| && IsCadvisorTarget(targets[i]) == Some(true)
                  && Skipped(targets, IsCadvisorTarget, i)
                  && targets[i].Map? && "health" in targets[i].fields
                  && targets[i].fields["health"] == Str("up")
  {
    match FindFirst(targets, IsCadvisorTarget)
    case Found(i) => Item(targets[i], "health") == Some(Str("up"))
    case _ => false
  }

  /**
   * The scrape check: the targets answer is a success, and the first active
   * target whose job label is "cadvisor" (earlier targets all being
   * non-matching, none raising) has health "up".
   */
  function ScrapingPasses(resp: Response): (ok: bool)
    ensures ok <==>
      && PrometheusApi.ActiveTargets(resp).Some?
      && var ts := PrometheusApi.ActiveTargets(resp).value;
         exists i :: 0 <= i < |ts| && IsCadvisorTarget(ts[i]) == Some(true) && Skipped(ts, IsCadvisorTarget, i)
                     && Item(ts[i], "health") == Some(Str("up"))
  {
    match PrometheusApi.ActiveTargets(resp)
    case None => false
    case Some(ts) => FirstCadvisorTargetUp(ts)
  }

  /**
   * The first cadvisor target alone decides: after non-matching targets, the
   * verdict is that target's health, whatever the targets listed after it hold.
   */
  lemma LaterTargetsIgnored(before: seq<Value>, target: Value, later: seq<Value>)
    requires forall j :: 0 <= j < |before| ==> IsCadvisorTarget(before[j]) == Some(false)
    requires IsCadvisorTarget(target) == Some(true)
    ensures FirstCadvisorTargetUp(before + [target] + later) <==> Item(target, "health") == Some(Str("up"))
  {
    var ts := before + [target] + later;
    assert ts[|before|] == target;
    assert Skipped(ts, IsCadvisorTarget, |before|) by {
      assert forall j :: 0 <= j < |before| ==> ts[j] == before[j];
    }
  }

  /** A first cadvisor target that is down fails the check even when a later one is up. */
  lemma FirstTargetDecides()
    ensures !ScrapingPasses(PrometheusApi.TargetsAnswer([
              Map(map["labels" := Map(map["job" := Str(JobName)]), "health" := Str("down")]),
              Map(map["labels" := Map(map["job" := Str(JobName)]), "health" := Str("up")])]))
  {
    var down := Map(map["labels" := Map(map["job" := Str(JobName)]), "health" := Str("down")]);
    var up := Map(map["labels" := Map(map["job" := Str(JobName)]), "health" := Str("up")]);
    PrometheusApi.TargetsAnswerLists([down, up]);
    assert IsCadvisorTarget(down) == Some(true);
    assert FindFirst([down, up], IsCadvisorTarget) == Found(0);
  }

  /** A target without labels is passed over, and a healthy cadvisor target after it still passes the check. */
  lemma UnlabelledTargetSkipped()
    ensures ScrapingPasses(PrometheusApi.TargetsAnswer([
              Map(map[]),
              Map(map["labels" := Map(map["job" := Str(JobName)]), "health" := Str("up")])]))
  {
    var up := Map(map["labels" := Map(map["job" := Str(JobName)]), "health" := Str("up")]);
    PrometheusApi.TargetsAnswerLists([Map(map[]), up]);
    assert IsCadvisorTarget(Map(map[])) == Some(false);
    assert IsCadvisorTarget(up) == Some(true);
    assert FindFirst([Map(map[]), up], IsCadvisorTarget) == Found(1);
  }

  /** `job["job_name"] == "cadvisor"`; a job that is not a mapping holding a name raises. */
  function IsCadvisorJob(job: Value): (r: Option<bool>)
    ensures r.None? <==> !job.Map? || "job_name" !in job.fields
    ensures r == Some(true) <==> job.Map? && "job_name" in job.fields && job.fields["job_name"] == Str(JobName)
  {
    var name :- Item(job, "job_name");
    Some(name == Str(JobName))
  }

  /**
   * The job-shape check: `static_configs` is a non-empty list whose first
   * entry lists "cadvisor:8080" among its targets, and the job has a
   * `metric_relabel_configs` key.
   */
  function JobShapePasses(job: Value): (ok: bool)
    ensures ok <==>
      && job.Map? && "static_configs" in job.fields
      && job.fields["static_configs"].List? && |job.fields["static_configs"].items| > 0
      && Item(job.fields["static_configs"].items[0], "targets").Some?
      && HasMember(Item(job.fields["static_configs"].items[0], "targets").value, TargetAddress) == Some(true)
      && "metric_relabel_configs" in job.fields
  {
    match Item(job, "static_configs")
    case None => false
    case Some(statics) =>
      && (match Len(statics) case Some(n) => n > 0 case None => false)
      && (match At(statics, 0)
          case None => false
          case Some(first) =>
            match Item(first, "targets")
            case None => false
            case Some(targets) => HasMember(targets, TargetAddress) == Some(true))
      && HasMember(job, "metric_relabel_configs") == Some(true)
  }

  /**
   * The declared-job check: among `scrape_configs`, the first job named
   * "cadvisor" (earlier jobs all named otherwise) passes the job-shape check.
   */
  function ConfigPasses(config: Value): (ok: bool)
    ensures ok <==>
      && Item(config, "scrape_configs").Some?
      && Elements(Item(config, "scrape_configs").value).Some?
      && var jobs := Elements(Item(config, "scrape_configs").value).value;
         exists i :: 0 <= i < |jobs| && IsCadvisorJob(jobs[i]) == Some(true) && Skipped(jobs, IsCadvisorJob, i)
                     && JobShapePasses(jobs[i])
  {
    match Item(config, "scrape_configs")
    case None => false
    case Some(declared) =>
      match Elements(declared)
      case None => false
      case Some(jobs) =>
        match FindFirst(jobs, IsCadvisorJob)
        case Found(i) => JobShapePasses(jobs[i])
        case _ => false
  }

  /** Declared order decides between duplicate cadvisor jobs: only the first one is checked. */
  lemma DeclaredOrderDecides(first: Value, second: Value)
    requires IsCadvisorJob(first) == Some(true)
    ensures ConfigPasses(Map(map["scrape_configs" := List([first, second])])) == JobShapePasses(first)
  {
    assert FindFirst([first, second], IsCadvisorJob) == Found(0);
  }

  /**
   * A query answer that is a success and whose `result` has length zero: an
   * empty list (no series), or else an empty string or mapping.
   */
  function ReturnsNothing(resp: Response): (ok: bool)
    ensures ok ==> PrometheusApi.Succeeded(resp).Some?
    ensures ok <==> PrometheusApi.QueryResult(resp).Some?
                    && PrometheusApi.QueryResult(resp).value in {List([]), Str(""), Map(map[])}
  {
    match PrometheusApi.QueryResult(resp)
    case None => false
    case Some(result) => Len(result) == Some(0)
  }

  /** The availability check: the success answer for `container_memory_usage_bytes` has a non-empty result. */
  function MetricsAvailablePasses(resp: Response): (ok: bool)
    ensures ok ==> PrometheusApi.Succeeded(resp).Some?
    ensures ok <==>
      && PrometheusApi.QueryResult(resp).Some?
      && var result := PrometheusApi.QueryResult(resp).value;
         || (result.List? && result.items != [])
         || (result.Str? && result.s != "")
         || (result.Map? && result.fields != map[])
  {
    match PrometheusApi.QueryResult(resp)
    case None => false
    case Some(result) =>
      match Len(result)
      case None => false
      case Some(n) => n > 0
  }

  /**
   * Availability is the converse of the cardinality-drop verdict: for an
   * answer whose result has a length, exactly one of the two passes.
   */
  lemma AvailabilityIsConverse(resp: Response)
    requires PrometheusApi.QueryResult(resp).Some? && Len(PrometheusApi.QueryResult(resp).value).Some?
    ensures MetricsAvailablePasses(resp) <==> !ReturnsNothing(resp)
  {
  }

  /**
   * The label check: an empty result passes without looking further; otherwise
   * the `metric` labels of the first series alone must hold `name`,
   * `instance` and `job`. A non-empty string or mapping in place of the
   * series list raises at `result[0]["metric"]`.
   */
  function LabelsPresentPasses(resp: Response): (ok: bool)
    ensures PrometheusApi.QueryResult(resp) == Some(List([])) ==> ok
    ensures ok <==>
      && PrometheusApi.QueryResult(resp).Some?
      && var result := PrometheusApi.QueryResult(resp).value;
         || result in {List([]), Str(""), Map(map[])}
         || (&& result.List? && result.items != []
             && Item(result.items[0], "metric").Some?
             && HasMember(Item(result.items[0], "metric").value, "name") == Some(true)
             && HasMember(Item(result.items[0], "metric").value, "instance") == Some(true)
             && HasMember(Item(result.items[0], "metric").value, "job") == Some(true))
  {
    match PrometheusApi.QueryResult(resp)
    case None => false
    case Some(result) =>
      match Len(result)
      case None => false
      case Some(n) =>
        if n == 0 then true
        else
          match At(result, 0)
          case None => false
          case Some(series) =>
            match Item(series, "metric")
            case None => false
            case Some(labels) =>
              && HasMember(labels, "name") == Some(true)
              && HasMember(labels, "instance") == Some(true)
              && HasMember(labels, "job") == Some(true)
  }

  /**
   * The loop over the dropped metrics, asking `answer(metric)` for each: the
   * index of the first metric whose query does not come back empty, if any.
   */
  function FirstUndropped(metrics: seq<string>, answer: string -> Response): (r: Option<nat>)
    ensures r.None? <==> forall i :: 0 <= i < |metrics| ==> ReturnsNothing(answer(metrics[i]))
    ensures r.Some? ==> r.value < |metrics| && !ReturnsNothing(answer(metrics[r.value]))
                        && forall j :: 0 <= j < r.value ==> ReturnsNothing(answer(metrics[j]))
    decreases |metrics|
  {
    if |metrics| == 0 then None
    else if !ReturnsNothing(answer(metrics[0])) then Some(0)
    else
      var rest := FirstUndropped(metrics[1..], answer);
      assert forall i :: 1 <= i < |metrics| ==> metrics[i] == metrics[1..][i - 1];
      match rest
      case None => None
      case Some(k) => Some(k + 1)
  }

  /** The cardinality check: every dropped metric's query is a success with zero series. */
  function CardinalityControlPasses(answer: string -> Response): (ok: bool)
    ensures ok <==> forall m :: m in DroppedMetrics ==> ReturnsNothing(answer(m))
  {
    FirstUndropped(DroppedMetrics, answer).None?
  }
}
