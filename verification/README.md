# Conformance checks of an observability stack, in Dafny

The repository checks a Prometheus + Loki + cAdvisor stack. It checks two things:

- **Declared configuration.** Does `prometheus.yml` and `loki-config.yml` state the intended policy?
- **Live behaviour.** Do the running services report that policy?

All of its logic sits in three pytest modules. Each test fetches a document, decodes it, and asserts on it. This project models those assertions as pure functions over already-decoded values. A test passes when its body runs to the end without raising. Each check is therefore a boolean verdict. Any Python exception counts as failure, whether a failed `assert`, a `KeyError`, a `TypeError` or a `ValueError`.

Modules:

- `Values` (values.dfy) holds the decoded-document datatype `Null | Bool | Int | Str | List | Map`. `Bool` is separate from `Int` because the checks use `is True` and `is False`. The module also has `Response` (status code, text, `.json()`), `Fetch` (a response or a transport failure), and the Python operations the checks rely on: subscripting, `.get` with a default, negative indexing, `len`, truthiness, `in`, and iteration. Each operation returns `None` where Python would raise. `FindFirst` is the `for … if …: found = x; break` loop. It stops at the first match, and it never inspects the elements after that match.
- `Text` (text.dfy) holds Python's `str.isspace` set, `str.strip()`, and substring `in`.
- `Durations` (durations.dfy) is the `_parse_duration` function. It takes `"<digits><s|m|h|d>"` and returns whole seconds. Anything else is rejected, including compound forms like `"744h0m0s"`.
- `PrometheusApi` (prometheus_api.dfy) checks the JSON envelope of a Prometheus API answer: status 200, JSON body, and `status == "success"`. It also extracts `data.activeTargets` and `data.result`.
- `PrometheusChecks` (prometheus.dfy) covers the syntax check, the interval policy, the self-scrape target verdict, and the retention flag.
- `CadvisorChecks` (cadvisor.dfy) covers `/healthz`, the first-match cadvisor target and job, the job shape, and three query verdicts: availability, label presence and cardinality drop.
- `LokiChecks` (loki.dfy) covers the static config values, the live retention check, and the live latest-schema check.
- `LokiReadiness` (readiness.dfy) is the readiness retry loop. It is a method that runs over ten scripted probe outcomes. It counts its attempts and the seconds it sleeps.

Three behaviours of the code are easy to misread:

- **Retention is compared as text.** The live value must be exactly `"744h0m0s"`, and the declared value exactly `"744h"`. No units are normalised, so a running Loki that echoes `"744h"` fails (`LokiChecks.DeclaredRetentionFormRejectedLive`).
- **The job-interval floor is fixed.** A job's own `scrape_interval` is compared with a fixed 30 seconds, not with the global interval.
- **Non-200 readiness answers are retried.** The readiness loop retries every non-200 answer at once, without sleeping. It sleeps only after a transport error. A 200 answer with the wrong text fails at once.

## Model

| member | source | states |
|---|---|---|
| `Durations.ParseDuration` | tests/integration/test_prometheus_scrape.py:116-127 | A string is accepted exactly when it is at least two characters long, ends in `s`, `m`, `h` or `d`, and has only digits before that. The value is the number times 1, 60, 3600 or 86400. An empty string or an unknown last character is an unknown-unit error, and a bad prefix is a not-an-integer error |
| `Durations.ShowRoundTrip` | tests/integration/test_prometheus_scrape.py:119 | Reading the decimal rendering of any n back as an integer gives n |
| `Durations.ParseRendered` | tests/integration/test_prometheus_scrape.py:118-125 | Any number n followed by a recognised unit parses to n times that unit's seconds |
| `Durations.UnitConversion` | tests/integration/test_prometheus_scrape.py:118-125 | The unit table for every n: `s` gives n, `m` gives 60·n, `h` gives 3600·n, `d` gives 86400·n |
| `Durations.StrictlyIncreasing` | tests/integration/test_prometheus_scrape.py:118-125 | For a fixed unit, a larger number always parses to strictly more seconds |
| `Durations.UnsupportedForms` | tests/integration/test_prometheus_scrape.py:118-127 | `"30ms"`, `"744h0m0s"` and `"s"` end in `s` but are rejected as not integers. `""` and `"30x"` are rejected as unknown units |
| `Durations.DeclaredForms` | tests/integration/test_prometheus_scrape.py:118-125 | The declared forms `"30s"`, `"744h"` and `"30d"` parse to 30, 2678400 and 2592000 seconds |
| `Text.TrimStartShape` | tests/integration/test_loki_setup.py:55 | Removing leading whitespace keeps a suffix of the input. Only whitespace is dropped, and what is left does not start with whitespace |
| `Text.TrimEndShape` | tests/integration/test_cadvisor_setup.py:20 | Removing trailing whitespace keeps a prefix of the input. Only whitespace is dropped, and what is left does not end with whitespace |
| `Text.StripShape` | tests/integration/test_loki_setup.py:55 | What `strip()` yields has no whitespace at either end. It is a slice of the input with only whitespace before and after it |
| `Text.StripIsExact` | tests/integration/test_cadvisor_setup.py:20 | For a word with non-space ends, a stripped text equals that word exactly when the text is the word padded with whitespace on both sides |
| `Values.FindFirst` | tests/integration/test_cadvisor_setup.py:44-48 | The first-match loop returns index i exactly when element i matches and every earlier element was tested and did not match. It reports no match exactly when every test came back false. It reports an exception exactly when some test raised after only non-matches |
| `Values.FindFirstIgnoresSuffix` | tests/integration/test_cadvisor_setup.py:101-105 | Once the loop has stopped, by a match or an exception, appending any elements leaves the outcome unchanged |
| `Values.Characters` | tests/integration/test_prometheus_scrape.py:51 | Looping over a string visits one one-character string per character, in order |
| `Values.LookupPair` | tests/integration/test_loki_setup.py:34 | `v[a][b]` answers exactly when `v` is a mapping holding `a` whose value is a mapping holding `b`, and it then gives that entry |
| `PrometheusApi.Succeeded` | tests/integration/test_prometheus_scrape.py:66-70 | An API answer is usable exactly when its status is 200, its body is JSON, and its `status` field is the string `"success"` |
| `PrometheusApi.ActiveTargets` | tests/integration/test_prometheus_scrape.py:75 | The active targets can be looped over exactly when the answer is a success whose `data` mapping holds `activeTargets`, and that value is iterable. The loop then visits its elements |
| `PrometheusApi.QueryResult` | tests/integration/test_cadvisor_setup.py:66 | `data["data"]["result"]` is present exactly when the answer is a success whose `data` mapping holds `result`. It is then that entry |
| `PrometheusChecks.ConfigSyntaxPasses` | tests/integration/test_prometheus_scrape.py:31-40 | Passes exactly when the document is a mapping with `global` and `scrape_configs`, and `global` is a mapping whose two intervals are the text `"30s"`. A list that only contains the section names fails |
| `PrometheusChecks.IntervalComparedAsText` | tests/integration/test_prometheus_scrape.py:37-40 | `"030s"` parses to 30 seconds, yet a global section that spells the interval that way fails the syntax check |
| `PrometheusChecks.JobIntervalAcceptable` | tests/integration/test_prometheus_scrape.py:52-56 | A job that is not a mapping fails. A job whose interval is absent or falsy (null, false, 0, empty text, list or mapping) is exempt. A truthy interval passes exactly when it is a string that parses to at least 30 seconds |
| `PrometheusChecks.RenderedJobInterval` | tests/integration/test_prometheus_scrape.py:52-56 | A job interval written as n plus a unit passes exactly when n times the unit's seconds is at least 30 |
| `PrometheusChecks.AllJobsAcceptable` | tests/integration/test_prometheus_scrape.py:51-56 | The loop over jobs passes exactly when every job passes its turn |
| `PrometheusChecks.IntervalPolicyPasses` | tests/integration/test_prometheus_scrape.py:48-56 | Passes only if `global.scrape_interval` is the text `"30s"`. For a job list, it passes exactly when that holds and every job is acceptable. In place of the list, only an empty string or mapping passes |
| `PrometheusChecks.JobOf` | tests/integration/test_prometheus_scrape.py:76 | `target["labels"]["job"]` is present exactly when the target is a mapping whose `labels` mapping holds `job`. Otherwise it raises |
| `PrometheusChecks.SelfTargets` | tests/integration/test_prometheus_scrape.py:73-77 | The comprehension succeeds exactly when every target has `labels.job`. It then keeps exactly the targets whose job is `"prometheus"` |
| `PrometheusChecks.SelfTargetsVerdict` | tests/integration/test_prometheus_scrape.py:79-83 | The selection is non-empty exactly when some active target is a prometheus target. All selected targets are up exactly when every prometheus target among all the active targets is up |
| `PrometheusChecks.SelfScrapePasses` | tests/integration/test_prometheus_scrape.py:61-83 | Passes exactly when: `/-/healthy` answers 200 with `"Healthy"` in its text; the targets answer is a success; every active target has a job label; at least one has job `"prometheus"`; and every such target has health `"up"` |
| `PrometheusChecks.UnlabelledTargetFails` | tests/integration/test_prometheus_scrape.py:73-77 | A target without labels fails the self-scrape check, even next to a healthy prometheus target |
| `PrometheusChecks.RetentionFlagPasses` | tests/integration/test_prometheus_scrape.py:88-96 | Passes exactly when the flags answer is a success and its `data."storage.tsdb.retention.time"` is the text `"30d"` |
| `CadvisorChecks.HealthPasses` | tests/integration/test_cadvisor_setup.py:18-20 | Passes exactly when the status is 200 and the text is `"ok"` with only whitespace around it |
| `CadvisorChecks.IsCadvisorTarget` | tests/integration/test_cadvisor_setup.py:46 | A target is a match exactly when its `labels.job` is `"cadvisor"`. A mapping target without labels, or whose labels have no job, is not a match and does not raise. Only a target or labels value that is not a mapping raises |
| `CadvisorChecks.FirstCadvisorTargetUp` | tests/integration/test_cadvisor_setup.py:44-51 | Passes exactly when some target i is a cadvisor match, every target before i is a non-match, and target i is a mapping whose `health` is `"up"` |
| `CadvisorChecks.ScrapingPasses` | tests/integration/test_cadvisor_setup.py:37-51 | Passes exactly when the targets answer is a success and some target i is a cadvisor match, every target before i is a non-match, and target i has health `"up"` |
| `CadvisorChecks.LaterTargetsIgnored` | tests/integration/test_cadvisor_setup.py:44-51 | After any run of non-matching targets, the first cadvisor target alone decides: the check passes exactly when that target's health is `"up"`, whatever the later targets hold |
| `CadvisorChecks.FirstTargetDecides` | tests/integration/test_cadvisor_setup.py:50-51 | A down first cadvisor target fails the check even when a later cadvisor target is up |
| `CadvisorChecks.UnlabelledTargetSkipped` | tests/integration/test_cadvisor_setup.py:45-48 | A target without labels is passed over, so a healthy cadvisor target after it passes |
| `CadvisorChecks.IsCadvisorJob` | tests/integration/test_cadvisor_setup.py:103 | Raises exactly when the job is not a mapping holding `job_name`. It matches exactly when `job_name` is `"cadvisor"` |
| `CadvisorChecks.JobShapePasses` | tests/integration/test_cadvisor_setup.py:110-115 | Passes exactly when `static_configs` is a non-empty list whose first entry's `targets` contains `"cadvisor:8080"`, and the job has a `metric_relabel_configs` key. "Contains" is Python `in`: a list element, a substring, or a mapping key |
| `CadvisorChecks.ConfigPasses` | tests/integration/test_cadvisor_setup.py:100-115 | Passes exactly when some job i of `scrape_configs` is named `"cadvisor"`, every earlier job has a different name, and job i passes the shape check |
| `CadvisorChecks.DeclaredOrderDecides` | tests/integration/test_cadvisor_setup.py:101-105 | With two cadvisor jobs, only the first one's shape decides the verdict |
| `CadvisorChecks.ReturnsNothing` | tests/integration/test_cadvisor_setup.py:143-150 | A query passes exactly when it is a success and its `result` has length zero, that is, it is an empty list, string or mapping |
| `CadvisorChecks.MetricsAvailablePasses` | tests/integration/test_cadvisor_setup.py:62-66 | Passes exactly when the query is a success and its `result` is a non-empty list, string or mapping |
| `CadvisorChecks.AvailabilityIsConverse` | tests/integration/test_cadvisor_setup.py:64-66 | When a query result has a length, exactly one of "metrics available" and "returns nothing" passes |
| `CadvisorChecks.LabelsPresentPasses` | tests/integration/test_cadvisor_setup.py:75-86 | An empty result passes. Otherwise the result must be a non-empty list, and only its first series' `metric` must contain `name`, `instance` and `job` |
| `CadvisorChecks.FirstUndropped` | tests/integration/test_cadvisor_setup.py:137-150 | The loop finds no failing metric exactly when every metric's query returns nothing. Otherwise it reports the first metric whose query does not come back empty |
| `CadvisorChecks.CardinalityControlPasses` | tests/integration/test_cadvisor_setup.py:130-150 | Passes exactly when each of the four dropped metrics' queries is a success with zero series |
| `LokiChecks.FirstSchemaField` | tests/integration/test_loki_setup.py:37-38 | `configs[0][field]` is present exactly when `schema_config.configs` is a non-empty list whose first entry is a mapping holding `field`. It is then that entry |
| `LokiChecks.StaticConfigPasses` | tests/integration/test_loki_setup.py:30-44 | Passes exactly when all of these hold: `auth_enabled` is the boolean false itself; `server.http_listen_port` equals 3100; the first `schema_config.configs` entry has schema `"v13"` and store `"tsdb"`; `retention_period` is the text `"744h"`; `retention_enabled` is the boolean true itself |
| `LokiChecks.LiveRetentionPasses` | tests/integration/test_loki_setup.py:85-91 | Fails when the request to `/config` raises a transport error. Passes when the answer is not 200. On a 200 answer, passes exactly when the JSON is a mapping with `limits_config.retention_period` equal to the text `"744h0m0s"` and `compactor.retention_enabled` equal to the boolean true |
| `LokiChecks.DeclaredRetentionFormRejectedLive` | tests/integration/test_loki_setup.py:90 | A live echo of the declared text `"744h"` fails. The declared text parses to 2678400 seconds, while the reported form does not parse at all |
| `LokiChecks.SchemaEntryCurrent` | tests/integration/test_loki_setup.py:103-104 | A schema entry is current exactly when it is a mapping with store `"tsdb"` and schema `"v13"` |
| `LokiChecks.LatestSchemaCurrent` | tests/integration/test_loki_setup.py:100-104 | Passes exactly when the schema list is a non-empty list whose last entry is current |
| `LokiChecks.LatestSchemaDecides` | tests/integration/test_loki_setup.py:102 | Entries before the last never change the live schema verdict |
| `LokiChecks.LiveSchemaPasses` | tests/integration/test_loki_setup.py:95-104 | Fails when the request to `/config` raises a transport error. Passes when the answer is not 200. On a 200 answer, passes exactly when the JSON is a mapping whose `schema_config.configs` has a current last entry |
| `LokiChecks.FirstAndLatestSchemaDiffer` | tests/integration/test_loki_setup.py:37-38 | The file check reads the first schema entry and the live check reads the last. Take a configuration that passes the file check and append a non-current entry to its schema list: the file check still passes, and a running Loki that echoes the result fails the live check |
| `LokiReadiness.ReadyTextIsPaddedReady` | tests/integration/test_loki_setup.py:55 | A ready answer's text is `"ready"` with only whitespace around it |
| `LokiReadiness.WaitUntilReady` | tests/integration/test_loki_setup.py:48-63 | The loop makes between 1 and 10 attempts, and every attempt before the last one was retried. It ends at the first 200 answer, which is ready or fails at once on any other text. A transport error on the 10th attempt propagates. It gives up exactly when no attempt is decisive. It sleeps 3 seconds per transport error before the final attempt, 27 seconds at most |

## Left out

- HTTP, YAML and files. `requests.get`, `yaml.safe_load`, `open` and `Path` are not modelled. Their results enter as `Value`, `Response` and `Fetch` inputs, and a body that is not JSON becomes `json == None`.
- Only the two live Loki checks take a `Fetch`, which can be a transport failure. The other live checks take a `Response`. For them, a refused connection or a timeout fails the test, just as any answer other than 200 does, so a non-200 `Response` stands for both.
- `time.sleep` is modelled as a counter of seconds slept. No real time passes.
- `LokiReadiness.WaitUntilReady` takes one scripted probe outcome per possible attempt. Exceptions other than `RequestException` are not modelled. The 5-second request timeout is one more way to get a transport error.
- `Durations.ParseDuration` accepts only ASCII digit strings before the unit. Python's `int()` also accepts a sign, surrounding whitespace, underscores between digits and non-ASCII decimal digits. So `"+30s"` and `" 30s"` pass the source's policy but are rejected here.
- `Values.Elements` reports a non-empty mapping as raising at once. Python would iterate its keys, in insertion order, and the unordered map cannot reproduce that order. Each key is a string, though, and every loop of the checks fails on a string element at its first step, so the verdicts agree.
- `Values.Value` has no floats, and its mapping keys are strings only. So YAML float or integer keys, and comparisons such as `3100.0 == 3100`, are not modelled.
- The checks report pass or fail only. Which exception fired, and the assertion messages, are not modelled.
- The raw-text checks on metrics endpoints are left out, because they depend on opaque server text. They are substring checks in test_prometheus_scrape.py:104-113, test_cadvisor_setup.py:22-32 and test_loki_setup.py:65-74.
- The Prometheus `/-/ready` check at test_prometheus_scrape.py:98-102 is left out. It needs Unicode `str.lower()`.
- The push endpoint's 405 check at test_loki_setup.py:76-81 is left out. It is a single status comparison.
- The container-API "is a list" check at test_cadvisor_setup.py:117-125 is left out. It is a single type test on an opaque answer.
- tests/conftest.py is not part of this model. It holds only fixtures, environment defaults, marker registration and a Docker ping. The `if __name__ == "__main__"` entry points are left out too.
