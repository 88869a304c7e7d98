/**
 * The Prometheus checks: the declared `prometheus.yml` (required sections,
 * literal global intervals, the per-job interval floor) and the live server
 * (self-scrape target health, retention flag).
 */
module PrometheusChecks {

  import opened Values
  import opened Durations
  import PrometheusApi
  import Text

  /** The global scrape and evaluation interval, compared as a string. */
  const ExpectedInterval: string := "30s"

  /** The floor, in seconds, for a job's own `scrape_interval`. */
  const MinimumJobSeconds: nat := 30

  /**
   * The syntax check: the document is a mapping with `global` and
   * `scrape_configs`, and `global` holds both intervals as exactly the string
   * "30s". A list that merely contains the section names passes the `in`
   * tests but raises at `config["global"]`.
   */
  function ConfigSyntaxPasses(config: Value): (ok: bool)
    ensures ok <==>
      && config.Map?
      && "global" in config.fields && "scrape_configs" in config.fields
      && config.fields["global"].Map?
      && "scrape_interval" in config.fields["global"].fields
      && config.fields["global"].fields["scrape_interval"] == Str(ExpectedInterval)
      && "evaluation_interval" in config.fields["global"].fields
      && config.fields["global"].fields["evaluation_interval"] == Str(ExpectedInterval)
  {
    && HasMember(config, "global") == Some(true)
    && HasMember(config, "scrape_configs") == Some(true)
    && match Item(config, "global")
       case None => false
       case Some(global) =>
         && Get(global, "scrape_interval") == Some(Str(ExpectedInterval))
         && Get(global, "evaluation_interval") == Some(Str(ExpectedInterval))
  }

  /** A global section whose interval means thirty seconds but is spelled "030s" is refused: the comparison is on text. */
  lemma IntervalComparedAsText()
    ensures ParseDuration("030s") == Parsed(30)
    ensures !ConfigSyntaxPasses(Map(map[
              "global" := Map(map["scrape_interval" := Str("030s"), "evaluation_interval" := Str("30s")]),
              "scrape_configs" := List([])]))
  {
    assert "030s"[..3] == "030" && "030"[..2] == "03" && "03"[..1] == "0" && "0"[..0] == "";
  }

  /**
   * One pass of the per-job loop: the job must be a mapping (it is asked for
   * `.get`), and an interval it sets to a truthy value must be a string that
   * parses to at least thirty seconds. An absent or falsy interval (null,
   * false, 0, "", an empty list or mapping) is exempt.
   */
  function JobIntervalAcceptable(job: Value): (ok: bool)
    ensures !job.Map? ==> !ok
    ensures job.Map? && "scrape_interval" !in job.fields ==> ok
    ensures job.Map? && "scrape_interval" in job.fields && !Truthy(job.fields["scrape_interval"]) ==> ok
    ensures job.Map? && "scrape_interval" in job.fields && Truthy(job.fields["scrape_interval"]) ==>
              (ok <==> job.fields["scrape_interval"].Str?
                       && ParseDuration(job.fields["scrape_interval"].s).Parsed?
                       && ParseDuration(job.fields["scrape_interval"].s).value >= MinimumJobSeconds)
  {
    match Get(job, "scrape_interval")
    case None => false
    case Some(interval) =>
      if !Truthy(interval) then true
      else
        match interval
        case Str(text) =>
          (match ParseDuration(text)
           case Parsed(seconds) => seconds >= MinimumJobSeconds
           case Rejected(_) => false)
        case _ => false
  }

  /** A job interval written as a number and a unit is accepted exactly when it is at least thirty seconds long. */
  lemma RenderedJobInterval(n: nat, u: char, rest: map<string, Value>)
    requires UnitSeconds(u).Some?
    ensures JobIntervalAcceptable(Map(rest["scrape_interval" := Str(Show(n) + [u])]))
            <==> n * UnitSeconds(u).value >= 30
  {
    ParseRendered(n, u);
  }

  /** The `for job in config["scrape_configs"]` loop: every job passes its turn. */
  function AllJobsAcceptable(jobs: seq<Value>): (ok: bool)
    ensures ok <==> forall i :: 0 <= i < |jobs| ==> JobIntervalAcceptable(jobs[i])
    decreases |jobs|
  {
    if |jobs| == 0 then true
    else
      var rest := AllJobsAcceptable(jobs[1..]);
      assert forall i :: 1 <= i < |jobs| ==> jobs[i] == jobs[1..][i - 1];
      JobIntervalAcceptable(jobs[0]) && rest
  }

  /**
   * The interval policy: `config["global"]["scrape_interval"]` is exactly
   * "30s", and every job of `scrape_configs` passes `JobIntervalAcceptable`.
   */
  function IntervalPolicyPasses(config: Value): (ok: bool)
    ensures ok ==> Lookup(config, ["global", "scrape_interval"]) == Some(Str(ExpectedInterval))
    ensures ok ==> config.Map? && "scrape_configs" in config.fields
    ensures config.Map? && "scrape_configs" in config.fields && config.fields["scrape_configs"].List? ==>
              (ok <==> Lookup(config, ["global", "scrape_interval"]) == Some(Str(ExpectedInterval))
                       && forall i :: 0 <= i < |config.fields["scrape_configs"].items| ==>
                            JobIntervalAcceptable(config.fields["scrape_configs"].items[i]))
    ensures config.Map? && "scrape_configs" in config.fields && !config.fields["scrape_configs"].List? ==>
              (ok <==> Lookup(config, ["global", "scrape_interval"]) == Some(Str(ExpectedInterval))
                       && config.fields["scrape_configs"] in {Str(""), Map(map[])})
  {
    && Lookup(config, ["global", "scrape_interval"]) == Some(Str(ExpectedInterval))
    && match Item(config, "scrape_configs")
       case None => false
       case Some(jobs) =>
         match Elements(jobs)
         case None => false
         case Some(js) => AllJobsAcceptable(js)
  }

  /**
   * `target["labels"]["job"]`: present exactly when the target is a mapping
   * whose `labels` mapping holds `job`; it raises otherwise.
   */
  function JobOf(target: Value): (r: Option<Value>)
    ensures r.Some? <==>
      target.Map? && "labels" in target.fields && target.fields["labels"].Map?
      && "job" in target.fields["labels"].fields
    ensures r.Some? ==> r.value == target.fields["labels"].fields["job"]
  {
    LookupPair(target, "labels", "job");
    Lookup(target, ["labels", "job"])
  }

  /**
   * The list comprehension selecting the targets of job "prometheus". It reads
   * the job label of every target, so one target without it raises; it keeps
   * exactly the targets whose job label is the string "prometheus".
   */
  function SelfTargets(targets: seq<Value>): (r: Option<seq<Value>>)
    ensures r.Some? <==> forall i :: 0 <= i < |targets| ==> JobOf(targets[i]).Some?
    ensures r.Some? ==> forall t :: t in r.value <==> t in targets && JobOf(t) == Some(Str("prometheus"))
    decreases |targets|
  {
    if |targets| == 0 then Some([])
    else
      var job :- JobOf(targets[0]);
      var rest :- SelfTargets(targets[1..]);
      assert forall i :: 1 <= i < |targets| ==> targets[i] == targets[1..][i - 1];
      assert targets == [targets[0]] + targets[1..];
      Some(if job == Str("prometheus") then [targets[0]] + rest else rest)
  }

  /**
   * The self-scrape check: `/-/healthy` answers 200 with "Healthy" in its
   * text; the targets answer is a success whose every active target has a job
   * label; at least one target belongs to job "prometheus"; and every such
   * target has health "up".
   */
  function SelfScrapePasses(health: Response, targets: Response): (ok: bool)
    ensures ok <==>
      && health.status == 200 && Text.Contains(health.text, "Healthy")
      && PrometheusApi.ActiveTargets(targets).Some?
      && var ts := PrometheusApi.ActiveTargets(targets).value;
      && (forall i :: 0 <= i < |ts| ==> JobOf(ts[i]).Some?)
      && (exists i :: 0 <= i < |ts| && JobOf(ts[i]) == Some(Str("prometheus")))
      && (forall i :: 0 <= i < |ts| && JobOf(ts[i]) == Some(Str("prometheus")) ==>
            Item(ts[i], "health") == Some(Str("up")))
  {
    && health.status == 200
    && Text.Contains(health.text, "Healthy")
    && match PrometheusApi.ActiveTargets(targets)
       case None => false
       case Some(ts) =>
         match SelfTargets(ts)
         case None => false
         case Some(own) =>
           SelfTargetsVerdict(ts, own);
           && |own| > 0
           && forall t :: t in own ==> Item(t, "health") == Some(Str("up"))
  }

  /** Reading the two conditions on the selected targets back as conditions on all active targets. */
  lemma SelfTargetsVerdict(ts: seq<Value>, own: seq<Value>)
    requires forall t :: t in own <==> t in ts && JobOf(t) == Some(Str("prometheus"))
    ensures |own| > 0 <==> exists i :: 0 <= i < |ts| && JobOf(ts[i]) == Some(Str("prometheus"))
    ensures (forall t :: t in own ==> Item(t, "health") == Some(Str("up")))
            <==> (forall i :: 0 <= i < |ts| && JobOf(ts[i]) == Some(Str("prometheus")) ==>
                    Item(ts[i], "health") == Some(Str("up")))
  {
    if |own| > 0 {
      assert own[0] in own;
    }
    if i :| 0 <= i < |ts| && JobOf(ts[i]) == Some(Str("prometheus")) {
      assert ts[i] in own;
    }
  }

  /**
   * One active target without labels fails the self-scrape check, even next
   * to a healthy prometheus target: the comprehension subscripts every target.
   */
  lemma UnlabelledTargetFails(health: Response)
    ensures !SelfScrapePasses(health, PrometheusApi.TargetsAnswer([
              Map(map[]),
              Map(map["labels" := Map(map["job" := Str("prometheus")]), "health" := Str("up")])]))
  {
    var targets := [Map(map[]), Map(map["labels" := Map(map["job" := Str("prometheus")]), "health" := Str("up")])];
    PrometheusApi.TargetsAnswerLists(targets);
    assert JobOf(targets[0]).None?;
  }

  /**
   * The retention check on `/api/v1/status/flags`: the flag
   * `storage.tsdb.retention.time` of the successful answer is exactly "30d".
   */
  function RetentionFlagPasses(flags: Response): (ok: bool)
    ensures ok <==>
      && PrometheusApi.Succeeded(flags).Some?
      && Lookup(flags.json.value, ["data", "storage.tsdb.retention.time"]) == Some(Str("30d"))
  {
    match PrometheusApi.Succeeded(flags)
    case None => false
    case Some(body) =>
      match Item(body, "data")
      case None => false
      case Some(data) => Get(data, "storage.tsdb.retention.time") == Some(Str("30d"))
  }
}
