/**
 The consumer of DriftGuard gate results (driftguard_consumer.py): shape, per-metric consistency, the aggregate
 decision and the seal.
 */
module DriftGuard {
  import opened Prelude
  import opened Strings
  import opened Json

  datatype Decision = Pass | Warn | Block | Unknown

  datatype Metric = Metric(
    name: string, status: Decision, blocking: bool, higherIsBetter: bool,
    baseline: Option<Value>, candidate: Option<Value>, regression: Option<Value>, maxRegression: Value,
    reasons: seq<string>)

  datatype GateResult = GateResult(decision: Decision, policy: string, metrics: seq<Metric>, reasons: seq<string>)

  // ---- the shape of the JSON ----

  const RESULT_KEYS := {
    "schema", "decision", "policy_id", "policy_digest", "baseline_digest",
    "candidate_digest", "metrics", "reasons", "claim_ceiling", "result_digest"}

  const METRIC_KEYS := {
    "name", "status", "severity", "direction", "baseline", "candidate", "regression", "max_regression", "reasons"}

  const CLAIM_CEILING: Value := List([
    Str("Deterministic comparison of supplied baseline/candidate metrics under the exact supplied policy."),
    Str("Does not prove evaluator correctness, benchmark representativeness, causal drift, or production impact."),
    Str("A PASS is admission evidence for this policy/input tuple only.")])

  function DecisionOf(v: Value): Option<Decision> {
    if v == Str("PASS") then Some(Pass)
    else if v == Str("WARN") then Some(Warn)
    else if v == Str("BLOCK") then Some(Block)
    else if v == Str("UNKNOWN") then Some(Unknown)
    else None
  }

  predicate Hex64(v: Value) {
    v.Str? && |v.s| == 64 && forall i | 0 <= i < 64 :: Digit(v.s[i]) || 'a' <= v.s[i] <= 'f'
  }

  const TWO_64: int := 0x1_0000_0000_0000_0000
  const TWO_256: int := TWO_64 * TWO_64 * TWO_64 * TWO_64

  /** 2^1024 - 2^970, or (2^54 - 1) * 2^10 * 2^960: from here on an integer has no finite float. */
  const FLOAT_LIMIT: int := 0x3F_FFFF_FFFF_FFFF * 0x400 * TWO_256 * TWO_256 * TWO_256 * TWO_64 * TWO_64 * TWO_64

  predicate Finite(v: Value) {
    match v
    case Int(n) => -FLOAT_LIMIT < n < FLOAT_LIMIT
    case Float(repr) => repr !in {"NaN", "Infinity", "-Infinity"}
    case _ => false
  }

  predicate Negative(v: Value) {
    match v
    case Int(n) => n < 0
    case Float(repr) => repr[0] == '-' && repr != "-0.0"
    case _ => false
  }

  predicate FiniteOrNull(v: Value) { v.Null? || Finite(v) }

  function Given(v: Value): Option<Value> { if v.Null? then None else Some(v) }

  predicate Texts(v: Value) { v.List? && forall i | 0 <= i < |v.items| :: v.items[i].Str? }

  function TextsOf(v: Value): (r: seq<string>)
    requires Texts(v)
    ensures |r| == |v.items| && forall i | 0 <= i < |r| :: v.items[i] == Str(r[i])
  {
    seq(|v.items|, i requires 0 <= i < |v.items| => v.items[i].s)
  }

  predicate MetricShaped(v: Value) {
    && v.Dict? && v.fields.Keys == METRIC_KEYS
    && v.fields["name"].Str? && DecisionOf(v.fields["status"]).Some?
    && v.fields["severity"] in {Str("block"), Str("warn")} && v.fields["direction"] in {Str("higher"), Str("lower")}
    && FiniteOrNull(v.fields["baseline"]) && FiniteOrNull(v.fields["candidate"]) && FiniteOrNull(v.fields["regression"])
    && Finite(v.fields["max_regression"]) && Texts(v.fields["reasons"])
  }

  function MetricOf(v: Value): Metric
    requires MetricShaped(v)
  {
    Metric(
      v.fields["name"].s, DecisionOf(v.fields["status"]).value,
      v.fields["severity"] == Str("block"), v.fields["direction"] == Str("higher"),
      Given(v.fields["baseline"]), Given(v.fields["candidate"]), Given(v.fields["regression"]),
      v.fields["max_regression"],
      TextsOf(v.fields["reasons"]))
  }

  predicate AllMetricShaped(items: seq<Value>) {
    forall i {:trigger items[i]} | 0 <= i < |items| :: MetricShaped(items[i])
  }

  function MetricsOf(items: seq<Value>): (r: seq<Metric>)
    requires AllMetricShaped(items)
    ensures |r| == |items| && forall i | 0 <= i < |r| :: r[i] == MetricOf(items[i])
  {
    seq(|items|, i requires 0 <= i < |items| => MetricOf(items[i]))
  }

  /** Everything but the metrics. */
  predicate Framed(v: Value) {
    && v.Dict? && v.fields.Keys == RESULT_KEYS
    && v.fields["schema"] == Str("DRIFTGUARD_CI_GATE_RESULT_V1") && DecisionOf(v.fields["decision"]).Some?
    && v.fields["policy_id"].Str?
    && Hex64(v.fields["policy_digest"]) && Hex64(v.fields["baseline_digest"])
    && Hex64(v.fields["candidate_digest"]) && Hex64(v.fields["result_digest"])
    && Texts(v.fields["reasons"]) && v.fields["claim_ceiling"] == CLAIM_CEILING && v.fields["metrics"].List?
  }

  predicate Shaped(v: Value) { Framed(v) && AllMetricShaped(v.fields["metrics"].items) }

  function ResultOf(v: Value): GateResult
    requires Shaped(v)
  {
    GateResult(
      DecisionOf(v.fields["decision"]).value, v.fields["policy_id"].s, MetricsOf(v.fields["metrics"].items),
      TextsOf(v.fields["reasons"]))
  }

  /** What the digest is taken over. */
  function Content(v: Value): Value
    requires v.Dict?
  {
    Dict(v.fields - {"result_digest"})
  }

  /** Shaped values are plain JSON. */
  ghost predicate Canonical(v: Value) { Plain(v) == v && Dumpable(v) }

  lemma TextsCanonical(v: Value)
    requires Texts(v)
    ensures Canonical(v)
  {
    assert PlainItems(v.items) == v.items;
  }

  lemma DictCanonical(v: Value)
    requires v.Dict? && forall k {:trigger v.fields[k]} | k in v.fields :: Canonical(v.fields[k])
    ensures Canonical(v)
  {
    assert (map k | k in v.fields :: Plain(v.fields[k])) == v.fields;
  }

  lemma MetricCanonical(v: Value)
    requires MetricShaped(v)
    ensures Canonical(v)
  {
    TextsCanonical(v.fields["reasons"]);
    forall k | k in v.fields ensures Canonical(v.fields[k]) { assert k in METRIC_KEYS; }
    DictCanonical(v);
  }

  lemma MetricsCanonical(v: Value)
    requires v.List? && AllMetricShaped(v.items)
    ensures Canonical(v)
  {
    forall i | 0 <= i < |v.items| ensures Canonical(v.items[i]) { MetricCanonical(v.items[i]); }
    assert PlainItems(v.items) == v.items;
  }

  lemma TextField(v: Value, k: string)
    requires Framed(v) && k in RESULT_KEYS - {"reasons", "claim_ceiling", "metrics"}
    ensures v.fields[k].Str?
  {
  }

  lemma FieldCanonical(v: Value, k: string)
    requires Shaped(v) && k in RESULT_KEYS
    ensures Canonical(v.fields[k])
  {
    if k == "reasons" || k == "claim_ceiling" {
      TextsCanonical(v.fields[k]);
    } else if k == "metrics" {
      MetricsCanonical(v.fields[k]);
    } else {
      TextField(v, k);
    }
  }

  lemma ContentCanonical(v: Value)
    requires Shaped(v)
    ensures Canonical(Content(v))
  {
    var c := Content(v);
    forall k | k in c.fields ensures Canonical(c.fields[k]) {
      assert k in RESULT_KEYS && c.fields[k] == v.fields[k];
      FieldCanonical(v, k);
    }
    DictCanonical(c);
  }

  // ---- what the metrics may say ----

  predicate GivenReasons(reasons: seq<string>) {
    reasons != [] && forall i | 0 <= i < |reasons| :: !White(reasons[i])
  }

  predicate Missing(m: Metric) { m.baseline.None? || m.candidate.None? }

  function MissingReason(m: Metric): string {
    "missing_"
    + (if m.baseline.Some? then "candidate" else if m.candidate.Some? then "baseline" else "baseline_and_candidate")
    + "_metric"
  }

  predicate Unrepresentable(m: Metric) { m.status == Unknown && !Missing(m) }

  /** The status is what the metric's evidence and reasons allow. */
  predicate Consistent(m: Metric) {
    && !White(m.name) && !Negative(m.maxRegression) && GivenReasons(m.reasons)
    && if Missing(m) then m.status == Unknown && m.regression.None? && m.reasons == [MissingReason(m)]
       else
         match m.status
         case Unknown => m.regression.None? && m.reasons == ["regression_unrepresentable"]
         case Pass => m.regression.Some? && m.reasons == ["within_policy"]
         case Block => m.regression.Some? && m.blocking && m.reasons != ["within_policy"]
         case Warn => m.regression.Some? && !m.blocking && m.reasons != ["within_policy"]
  }

  predicate Lawful(metrics: seq<Metric>) {
    && (forall i | 0 <= i < |metrics| :: Consistent(metrics[i]))
    && StrictlyIncreasing(Names(metrics))
  }

  function Names(metrics: seq<Metric>): (r: seq<string>)
    ensures |r| == |metrics| && forall i | 0 <= i < |r| :: r[i] == metrics[i].name
  {
    seq(|metrics|, i requires 0 <= i < |metrics| => metrics[i].name)
  }

  predicate Any(metrics: seq<Metric>, s: Decision) { exists i | 0 <= i < |metrics| :: metrics[i].status == s }

  predicate AnyUnrepresentable(metrics: seq<Metric>) { exists i | 0 <= i < |metrics| :: Unrepresentable(metrics[i]) }

  predicate AnyMissing(metrics: seq<Metric>) { exists i | 0 <= i < |metrics| :: Missing(metrics[i]) }

  /** A decision with its reasons. */
  datatype Verdict = Verdict(decision: Decision, reasons: seq<string>)

  /** The verdicts the metrics allow: one, or two when only missing evidence stands in the way. */
  function Allowed(metrics: seq<Metric>): set<Verdict> {
    if metrics == [] then {Verdict(Unknown, ["baseline_candidate_subject_mismatch"])}
    else if Any(metrics, Block) then {Verdict(Block, ["one_or_more_blocking_metrics_failed"])}
    else if AnyUnrepresentable(metrics) then {Verdict(Unknown, ["one_or_more_regressions_unrepresentable"])}
    else if AnyMissing(metrics) then
      {Verdict(Unknown, ["required_metric_evidence_missing"]),
       Verdict(Warn, (if Any(metrics, Warn) then ["one_or_more_warning_metrics_failed"] else [])
                     + ["metric_evidence_missing_but_policy_warns"])}
    else if Any(metrics, Warn) then {Verdict(Warn, ["one_or_more_warning_metrics_failed"])}
    else {Verdict(Pass, ["all_metrics_within_policy"])}
  }

  /** The rules on a result's content. */
  predicate Sound(r: GateResult) {
    && !White(r.policy) && GivenReasons(r.reasons) && Lawful(r.metrics)
    && Verdict(r.decision, r.reasons) in Allowed(r.metrics)
  }

  /** The result names the digest of the rest of itself; `hash` is SHA-256 in hexadecimal. */
  predicate Sealed(v: Value, hash: string -> string)
    requires v.Dict?
  {
    && "result_digest" in v.fields && Dumpable(Content(v))
    && v.fields["result_digest"] == Str(hash(Text(Content(v))))
  }

  predicate Accepted(v: Value, hash: string -> string) {
    Shaped(v) && Sound(ResultOf(v)) && Sealed(v, hash)
  }

  /** What the loop body checks of one metric, in its own order. */
  method CheckMetric(m: Metric) returns (ok: bool)
    ensures ok <==> Consistent(m)
  {
    if White(m.name) || Negative(m.maxRegression) || !GivenReasons(m.reasons) {
      return false;
    }
    if m.baseline.None? || m.candidate.None? {
      return m.status == Unknown && m.regression.None? && m.reasons == [MissingReason(m)];
    }
    if m.status == Unknown {
      return m.regression.None? && m.reasons == ["regression_unrepresentable"];
    }
    if m.regression.None? {
      return false;
    }
    match m.status
    case Pass => return m.reasons == ["within_policy"];
    case Block => return m.blocking && m.reasons != ["within_policy"];
    case Warn => return !m.blocking && m.reasons != ["within_policy"];
  }

  /** What the loop has gathered from the metrics it has seen. */
  datatype Tally = Tally(names: seq<string>, statuses: set<Decision>, unrepresentable: bool, missing: bool)

  ghost predicate Tallied(metrics: seq<Metric>, t: Tally) {
    && t.names == Names(metrics)
    && (forall s :: s in t.statuses <==> Any(metrics, s))
    && (t.unrepresentable <==> AnyUnrepresentable(metrics))
    && (t.missing <==> AnyMissing(metrics))
  }

  function Counted(t: Tally, m: Metric): Tally {
    Tally(t.names + [m.name], t.statuses + {m.status}, t.unrepresentable || Unrepresentable(m), t.missing || Missing(m))
  }

  lemma TallyGrows(metrics: seq<Metric>, m: Metric, t: Tally)
    requires Tallied(metrics, t)
    ensures Tallied(metrics + [m], Counted(t, m))
  {
    var more := metrics + [m];
    assert more[|metrics|] == m && forall i | 0 <= i < |metrics| :: more[i] == metrics[i];
  }

  lemma AggregateAllows(r: GateResult, t: Tally)
    requires Tallied(r.metrics, t)
    ensures Aggregate(r.decision, r.reasons, |r.metrics| == 0, t.statuses, t.unrepresentable, t.missing) <==>
            Verdict(r.decision, r.reasons) in Allowed(r.metrics)
  {
  }

  predicate GoodMetric(v: Value) { MetricShaped(v) && Consistent(MetricOf(v)) }

  ghost predicate Read(items: seq<Value>, metrics: seq<Metric>) {
    && |metrics| == |items|
    && forall i {:trigger items[i]} {:trigger metrics[i]} | 0 <= i < |items| ::
         GoodMetric(items[i]) && metrics[i] == MetricOf(items[i])
  }

  lemma ReadGrows(items: seq<Value>, metrics: seq<Metric>, v: Value)
    requires Read(items, metrics) && GoodMetric(v)
    ensures Read(items + [v], metrics + [MetricOf(v)])
  {
  }

  /** One metric: its shape, and then its consistency. */
  method ReadMetric(v: Value) returns (m: Option<Metric>)
    ensures m.Some? <==> GoodMetric(v)
    ensures m.Some? ==> m.value == MetricOf(v)
  {
    if !MetricShaped(v) {
      return None;
    }
    var ok := CheckMetric(MetricOf(v));
    return if ok then Some(MetricOf(v)) else None;
  }

  /** The loop over the metrics. */
  method CheckMetrics(items: seq<Value>) returns (t: Option<Tally>, ghost metrics: seq<Metric>)
    ensures t.Some? <==> forall i | 0 <= i < |items| :: GoodMetric(items[i])
    ensures t.Some? ==> Read(items, metrics) && Tallied(metrics, t.value)
  {
    var seen := Tally([], {}, false, false);
    metrics := [];
    for i := 0 to |items|
      invariant Read(items[..i], metrics)
      invariant Tallied(metrics, seen)
    {
      var m := ReadMetric(items[i]);
      if m.None? {
        return None, metrics;
      }
      assert items[..i + 1] == items[..i] + [items[i]];
      ReadGrows(items[..i], metrics, items[i]);
      TallyGrows(metrics, m.value, seen);
      metrics, seen := metrics + [m.value], Counted(seen, m.value);
    }
    assert items[..|items|] == items;
    return Some(seen), metrics;
  }

  lemma ReadAll(v: Value, metrics: seq<Metric>)
    requires Framed(v) && Read(v.fields["metrics"].items, metrics)
    ensures Shaped(v) && ResultOf(v).metrics == metrics
    ensures forall i | 0 <= i < |metrics| :: Consistent(metrics[i])
  {
  }

  lemma NotAllGood(v: Value)
    requires Framed(v) && !forall i | 0 <= i < |v.fields["metrics"].items| :: GoodMetric(v.fields["metrics"].items[i])
    ensures !Shaped(v) || !Sound(ResultOf(v))
  {
    if Shaped(v) {
      var items := v.fields["metrics"].items;
      var i :| 0 <= i < |items| && !GoodMetric(items[i]);
      assert ResultOf(v).metrics[i] == MetricOf(items[i]);
    }
  }

  /**
   `_validate_result`: accepted exactly under the rules, in any shape the input has. An accepted result blocks
   exactly when some metric blocks, and passes exactly when there are metrics and every one of them passes.
   */
  method ValidateResult(v: Value, hash: string -> string) returns (r: Option<GateResult>)
    ensures r.Some? <==> Accepted(v, hash)
    ensures r.Some? ==> r.value == ResultOf(v)
    ensures r.Some? ==> (r.value.decision == Block <==> Any(r.value.metrics, Block))
    ensures r.Some? ==>
      (r.value.decision == Pass <==>
         r.value.metrics != [] && forall i | 0 <= i < |r.value.metrics| :: r.value.metrics[i].status == Pass)
  {
    if !Framed(v) {
      return None;
    }
    var decision, reasons := DecisionOf(v.fields["decision"]).value, TextsOf(v.fields["reasons"]);
    if White(v.fields["policy_id"].s) || !GivenReasons(reasons) {
      return None;
    }
    var checked, metrics := CheckMetrics(v.fields["metrics"].items);
    if checked.None? {
      NotAllGood(v);
      return None;
    }
    var t := checked.value;
    ReadAll(v, metrics);
    SortedOfIncreasing(t.names);
    if t.names != Sorted(set n | n in t.names) {
      return None;
    }
    AggregateAllows(ResultOf(v), t);
    if !Aggregate(decision, reasons, v.fields["metrics"].items == [], t.statuses, t.unrepresentable, t.missing) {
      return None;
    }
    ContentCanonical(v);
    if v.fields["result_digest"] != Str(hash(Text(Content(v)))) {
      return None;
    }
    BlocksExactly(ResultOf(v));
    PassesExactly(ResultOf(v));
    return Some(ResultOf(v));
  }

  /** The aggregate precedence, on the flags the loop kept. */
  function Aggregate(
    decision: Decision, reasons: seq<string>, empty: bool, statuses: set<Decision>, unrepresentable: bool,
    missing: bool): bool
  {
    if empty then decision == Unknown && reasons == ["baseline_candidate_subject_mismatch"]
    else if Block in statuses then decision == Block && reasons == ["one_or_more_blocking_metrics_failed"]
    else if unrepresentable then decision == Unknown && reasons == ["one_or_more_regressions_unrepresentable"]
    else if missing then
      if decision == Unknown then reasons == ["required_metric_evidence_missing"]
      else if decision == Warn then
        var expected := if Warn in statuses then ["one_or_more_warning_metrics_failed"] else [];
        reasons == expected + ["metric_evidence_missing_but_policy_warns"]
      else false
    else if Warn in statuses then decision == Warn && reasons == ["one_or_more_warning_metrics_failed"]
    else decision == Pass && reasons == ["all_metrics_within_policy"]
  }

  // ---- what acceptance means ----

  /** A sound result blocks exactly when some metric blocks. */
  lemma BlocksExactly(r: GateResult)
    requires Sound(r)
    ensures r.decision == Block <==> Any(r.metrics, Block)
  {
  }

  /** A sound result passes exactly when there are metrics and every one of them passes. */
  lemma PassesExactly(r: GateResult)
    requires Sound(r)
    ensures r.decision == Pass <==> r.metrics != [] && forall i | 0 <= i < |r.metrics| :: r.metrics[i].status == Pass
  {
  }

  /** Nothing blocks, every regression is known or its evidence missing, and some evidence is missing. */
  predicate OnlyMissing(metrics: seq<Metric>) {
    metrics != [] && !Any(metrics, Block) && !AnyUnrepresentable(metrics) && AnyMissing(metrics)
  }

  /** The metrics determine decision and reasons, except that missing evidence may be UNKNOWN or WARN. */
  lemma VerdictDetermined(r: GateResult, s: GateResult)
    requires Sound(r) && Sound(s) && r.metrics == s.metrics
    ensures (r.decision, r.reasons) != (s.decision, s.reasons) ==>
              OnlyMissing(r.metrics) && {r.decision, s.decision} == {Unknown, Warn}
  {
  }

  /** The producer has that choice exactly then. */
  lemma ChoiceExactly(metrics: seq<Metric>)
    ensures |Allowed(metrics)| == if OnlyMissing(metrics) then 2 else 1
  {
  }

  /** While no two texts share a digest, an accepted digest names one result: nothing in it can change unnoticed. */
  lemma DigestNamesResult(v: Value, w: Value, hash: string -> string)
    requires Accepted(v, hash) && Accepted(w, hash) && v.fields["result_digest"] == w.fields["result_digest"]
    requires forall a, b {:trigger hash(a), hash(b)} :: hash(a) == hash(b) ==> a == b
    ensures v == w
  {
    ContentCanonical(v);
    ContentCanonical(w);
    TextInjective(Content(v), Content(w));
    assert Content(v) == Content(w);
    forall k | k in RESULT_KEYS ensures v.fields[k] == w.fields[k] {
      if k != "result_digest" { assert Content(v).fields[k] == v.fields[k] && Content(w).fields[k] == w.fields[k]; }
    }
    assert v.fields == w.fields;
  }

  /** `_unique_keys`: refused exactly when a key repeats; otherwise every pair is kept. */
  method UniqueKeys<V>(pairs: seq<(string, V)>) returns (r: Option<map<string, V>>)
    ensures r.None? <==> exists i, j :: 0 <= i < j < |pairs| && pairs[i].0 == pairs[j].0
    ensures r.Some? ==>
      && |r.value| == |pairs|
      && forall i | 0 <= i < |pairs| :: pairs[i].0 in r.value && r.value[pairs[i].0] == pairs[i].1
  {
    var value: map<string, V> := map[];
    for n := 0 to |pairs|
      invariant |value| == n
      invariant forall k :: k in value ==> exists i :: 0 <= i < n && pairs[i].0 == k
      invariant forall i | 0 <= i < n :: pairs[i].0 in value && value[pairs[i].0] == pairs[i].1
      invariant forall i, j | 0 <= i < j < n :: pairs[i].0 != pairs[j].0
    {
      if pairs[n].0 in value {
        return None;
      }
      value := value[pairs[n].0 := pairs[n].1];
    }
    return Some(value);
  }
}
