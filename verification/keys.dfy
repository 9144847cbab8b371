/**
 * Generations and store keys. A request belongs to the one-minute bucket
 * of its start time; the bucket's parity picks one of two generations
 * (EVEN or ODD) per project, and every key of a generation starts with
 * the generation's prefix.
 */
module Keys {
  import opened Php

  /** Each bucket covers one minute. */
  const BucketSeconds := 60

  /** `(int)floor(time / 60)`. */
  function Bucket(time: int): (id: int)
    ensures BucketSeconds * id <= time < BucketSeconds * id + BucketSeconds
  {
    time / BucketSeconds
  }

  /** `id % 2 === 0`; PHP's truncating `%` and Dafny's agree on whether the remainder is zero. */
  predicate IsEvenId(id: int) {
    id % 2 == 0
  }

  /** The bucket a time falls into is the only one whose minute contains it. */
  lemma BucketUnique(time: int, id: int)
    requires BucketSeconds * id <= time < BucketSeconds * id + BucketSeconds
    ensures Bucket(time) == id
  {
  }

  /** One minute later is the next bucket, which belongs to the other generation. */
  lemma NextMinuteFlipsParity(time: int)
    ensures Bucket(time + BucketSeconds) == Bucket(time) + 1
    ensures IsEvenId(Bucket(time + BucketSeconds)) <==> !IsEvenId(Bucket(time))
  {
    BucketUnique(time + BucketSeconds, Bucket(time) + 1);
  }

  function ParityName(isEven: bool): string {
    if isEven then "EVEN" else "ODD"
  }

  /** `getApcuTagPrefix`: `PhpMetrics_<project>_<EVEN|ODD>`. */
  function TagPrefix(project: string, isEven: bool): string {
    "PhpMetrics_" + project + "_" + ParityName(isEven)
  }

  /** `getApcuTagsKey`: the generation's list of tags seen. */
  function TagsKey(prefix: string): (k: string)
    ensures |k| > |prefix| + 1 && k[|k| - 1] == 's' && k[|k| - 2] == 'g'
  {
    prefix + "_tags"
  }

  /** `getApcuMetricsKey`: the generation's list of request-metric names seen. */
  function MetricsKey(prefix: string): (k: string)
    ensures |k| > |prefix| + 1 && k[|k| - 1] == 's' && k[|k| - 2] == 'c'
  {
    prefix + "_metrics"
  }

  /** The counter of metric `name` under `tag`: `<prefix>_<name>_{{<tag>}}`. */
  function CounterKey(prefix: string, name: string, tag: string): (k: string)
    ensures |k| == |prefix| + |name| + |tag| + 6 && k[|k| - 1] == '}'
  {
    prefix + "_" + name + "_{{" + tag + "}}"
  }

  /** The name a request metric is counted and reported under: `success_<m>` or `fail_<m>`. */
  function OutcomeName(outcome: string, metric: string): string {
    outcome + "_" + metric
  }

  /** The per-parity watermark: the bucket id the generation was last flushed up to. */
  function WatermarkKey(project: string, isEven: bool): (k: string)
    ensures |k| > 0 && k[|k| - 1] == 'd'
  {
    if isEven then "PhpMetrics_" + project + "_EVEN_id" else "PhpMetrics_" + project + "_ODD_id"
  }

  /** The flush lock for one stale bucket of one project. */
  function LockKey(project: string, id: int): (k: string)
    ensures |k| > 0 && IsDigit(k[|k| - 1])
  {
    "PhpMetrics_APCU_Logger_lock_" + project + "_" + IntToString(id)
  }

  /** Every key of a generation, and its watermark, starts with the generation's prefix. */
  lemma KeysShareThePrefix(project: string, isEven: bool, name: string, tag: string)
    ensures var p := TagPrefix(project, isEven);
      && p <= TagsKey(p) && p <= MetricsKey(p) && p <= CounterKey(p, name, tag)
      && WatermarkKey(project, isEven) == p + "_id"
      && p[..|"PhpMetrics_" + project|] == "PhpMetrics_" + project
  {
    var p := TagPrefix(project, isEven);
    assert TagsKey(p)[..|p|] == p;
    assert MetricsKey(p)[..|p|] == p;
    assert CounterKey(p, name, tag)[..|p|] == p;
  }

  /** A tag without `{` cannot hide the `{{` that separates the metric name from the tag. */
  predicate BraceFree(tag: string) {
    forall i :: 0 <= i < |tag| ==> tag[i] != '{'
  }

  /** Within one generation, the counter key determines the metric name and the tag. */
  lemma CounterKeyInjective(prefix: string, n1: string, t1: string, n2: string, t2: string)
    requires BraceFree(t1) && BraceFree(t2)
    requires CounterKey(prefix, n1, t1) == CounterKey(prefix, n2, t2)
    ensures n1 == n2 && t1 == t2
  {
    var k := CounterKey(prefix, n1, t1);
    if |n1| < |n2| {
      SecondBrace(prefix, n2, t2);
      InsideTag(prefix, n1, t1, |prefix| + |n2| + 3);
    } else if |n2| < |n1| {
      SecondBrace(prefix, n1, t1);
      InsideTag(prefix, n2, t2, |prefix| + |n1| + 3);
    }
    assert |n1| == |n2| && |t1| == |t2|;
    assert n1 == k[|prefix| + 1..|prefix| + 1 + |n1|];
    assert n2 == k[|prefix| + 1..|prefix| + 1 + |n2|];
    assert t1 == k[|prefix| + |n1| + 4..|k| - 2];
  }

  lemma SecondBrace(prefix: string, n: string, t: string)
    ensures CounterKey(prefix, n, t)[|prefix| + |n| + 3] == '{'
  {
    var k := CounterKey(prefix, n, t);
    assert k == (prefix + "_" + n) + "_{{" + (t + "}}");
  }

  /** Positions after the `_{{` and before the closing `}}` hold the tag. */
  lemma InsideTag(prefix: string, n: string, t: string, i: int)
    requires |prefix| + |n| + 4 <= i < |prefix| + |n| + 4 + |t|
    ensures CounterKey(prefix, n, t)[i] == t[i - |prefix| - |n| - 4]
  {
    var k := CounterKey(prefix, n, t);
    assert k == (prefix + "_" + n + "_{{") + t + "}}";
  }

  /** Keys of different kinds never coincide: they end in different characters. */
  lemma KindsDiffer(p: string, q: string, name: string, tag: string, project: string, isEven: bool, id: int)
    ensures CounterKey(p, name, tag) != TagsKey(q) && CounterKey(p, name, tag) != MetricsKey(q)
    ensures CounterKey(p, name, tag) != WatermarkKey(project, isEven)
    ensures CounterKey(p, name, tag) != LockKey(project, id)
    ensures TagsKey(q) != WatermarkKey(project, isEven) && MetricsKey(q) != WatermarkKey(project, isEven)
    ensures TagsKey(q) != LockKey(project, id) && MetricsKey(q) != LockKey(project, id)
    ensures WatermarkKey(project, isEven) != LockKey(project, id)
    ensures TagsKey(p) != MetricsKey(p)
  {
    assert |TagsKey(p)| != |MetricsKey(p)|;
  }
}
