/**
 * The relabelling step of `backfillRules`: a raw query result becomes an
 * output sample named after the rule and carrying the rule's labels.
 */
module Relabel {
  import opened Base
  import opened Rules

  /** One element of an instant-query result vector: series labels, value, timestamp. */
  datatype RawSample = RawSample(metric: Labels, v: Float64Bits, t: int64)

  /** An output sample handed to block creation. */
  datatype Sample = Sample(labels: Labels, value: Float64Bits, ts: int64)

  /**
   * The raw labels with the metric name set to `name`, after which every rule
   * label is set, overwriting a raw label (or the name) with the same key.
   */
  function RelabelSet(raw: Labels, name: string, lset: Labels): (r: Labels)
    ensures r.Keys == raw.Keys + {MetricName} + lset.Keys
    ensures forall k :: k in lset ==> r[k] == lset[k]
    ensures MetricName !in lset ==> r[MetricName] == name
    ensures forall k :: k in raw && k != MetricName && k !in lset ==> r[k] == raw[k]
  {
    raw[MetricName := name] + lset
  }

  /** Relabelling is idempotent: applying the rule's name and labels twice is applying them once. */
  lemma RelabelIdempotent(raw: Labels, name: string, lset: Labels)
    ensures RelabelSet(RelabelSet(raw, name, lset), name, lset) == RelabelSet(raw, name, lset)
  {
  }

  /** The output sample for one raw result of `rule`: value and timestamp are copied unchanged. */
  function ToSample(rule: RecordingRule, raw: RawSample): Sample
  {
    Sample(RelabelSet(raw.metric, rule.name, rule.lset), raw.v, raw.t)
  }

  /** The output samples for one result vector of `rule`, in vector order. */
  function Relabeled(rule: RecordingRule, v: seq<RawSample>): seq<Sample>
  {
    seq(|v|, k requires 0 <= k < |v| => ToSample(rule, v[k]))
  }
}
