/**
 * The increment path as functions on the store: what `updateTagsStore`,
 * `updateMetricsStore`, `incrementApcuBaseMetric` and
 * `incrementApcuRequestMetrics` leave behind. The logger's methods are
 * proved to compute exactly these.
 */
module Aggregation {
  import opened Php
  import opened Apcu
  import opened Keys
  import opened Dicts

  /** Key `k` holds the same thing (or is absent) in both stores. */
  predicate SameAt(s: Store, r: Store, k: string) {
    (k in r <==> k in s) && (k in s ==> r[k] == s[k])
  }

  /** A name list after `if (!in_array($x, $list)) $list[] = $x;`. */
  function AddName(list: seq<string>, x: string): (r: seq<string>)
    ensures x in r
    ensures forall y :: y in r <==> y in list || y == x
    ensures list <= r && |r| <= |list| + 1
    ensures NoDuplicates(list) ==> NoDuplicates(r)
  {
    if x in list then list else list + [x]
  }

  /** A second addition of the same name changes nothing. */
  lemma AddNameIdempotent(list: seq<string>, x: string)
    ensures AddName(AddName(list, x), x) == AddName(list, x)
  {
  }

  /** The list after adding each of `xs` in turn. */
  function AddNames(list: seq<string>, xs: seq<string>): (r: seq<string>)
    ensures forall y :: y in r <==> y in list || y in xs
    ensures list <= r
    ensures NoDuplicates(list) ==> NoDuplicates(r)
  {
    if xs == [] then list
    else
      var init := AddNames(list, xs[..|xs| - 1]);
      assert forall y :: y in xs <==> y in xs[..|xs| - 1] || y == xs[|xs| - 1];
      AddName(init, xs[|xs| - 1])
  }

  /**
   * `updateTagsStore($x)` / `updateMetricsStore($x)` on the list at `key`:
   * `apcu_entry` creates the list empty when absent, and the list is stored
   * back only when `x` was not in it.
   */
  function RecordName(s: Store, key: string, x: string): (r: Store)
    ensures NamesAt(r, key) == AddName(NamesAt(s, key), x) && key in r
    ensures x in NamesAt(s, key) ==> r == s
    ensures forall k :: k != key ==> SameAt(s, r, k)
  {
    var list := NamesAt(s, key);
    if x in list then s else s[key := Names(list + [x])]
  }

  /** `updateMetricsStore` for each metric name of the request, in order. */
  function RecordNames(s: Store, key: string, xs: seq<string>): (r: Store)
    ensures NamesAt(r, key) == AddNames(NamesAt(s, key), xs)
    ensures forall k :: k != key ==> SameAt(s, r, k)
  {
    if xs == [] then s
    else
      var mid := RecordNames(s, key, xs[..|xs| - 1]);
      var r := RecordName(mid, key, xs[|xs| - 1]);
      assert forall k :: k != key ==> SameAt(s, r, k) by {
        forall k | k != key ensures SameAt(s, r, k) {
          assert SameAt(s, mid, k) && SameAt(mid, r, k);
        }
      }
      r
  }

  /** `apcu_store($k, apcu_entry($k, fn() => 0) + $v)`. */
  function IncrementBase(s: Store, key: string, v: int): (r: Store)
    ensures NumberAt(r, key) == NumberAt(s, key) + v && key in r
    ensures forall k :: k != key ==> SameAt(s, r, k)
  {
    s[key := Number(NumberAt(s, key) + v)]
  }

  /** `apcu_entry($k, fn() => 0)` alone: creates the counter at 0 when absent. */
  function EnsureCounter(s: Store, key: string): (r: Store)
    ensures NumberAt(r, key) == NumberAt(s, key) && key in r
    ensures forall k :: k != key ==> SameAt(s, r, k)
  {
    if key in s then s else s[key := Number(0)]
  }

  /** `incrementApcuBaseMetric(name, v)` in generation `prefix` with the logger's tag. */
  function IncrementBaseMetric(s: Store, prefix: string, tag: string, name: string, v: int): (r: Store)
    ensures NumberAt(r, CounterKey(prefix, name, tag)) == NumberAt(s, CounterKey(prefix, name, tag)) + v
    ensures NamesAt(r, TagsKey(prefix)) == AddName(NamesAt(s, TagsKey(prefix)), tag)
    ensures forall k :: k != TagsKey(prefix) && k != CounterKey(prefix, name, tag) ==> SameAt(s, r, k)
  {
    KindsDiffer(prefix, prefix, name, tag, "", true, 0);
    IncrementBase(RecordName(s, TagsKey(prefix), tag), CounterKey(prefix, name, tag), v)
  }

  /** The two outcomes every request metric is kept under. */
  const Outcomes: seq<string> := ["success", "fail"]

  /** Whether outcome `o` is the one a request with this result counts under. */
  predicate Matches(o: string, success: bool) {
    (success && o == "success") || (!success && o == "fail")
  }

  /** The counter of request metric `m` under outcome `o` and `tag`. */
  function OutcomeKey(prefix: string, o: string, m: string, tag: string): string {
    CounterKey(prefix, OutcomeName(o, m), tag)
  }

  /** One step of the inner loop: add the value when the outcome matches, else only create the counter. */
  function Bump(s: Store, key: string, v: int, apply: bool): (r: Store)
    ensures NumberAt(r, key) == NumberAt(s, key) + (if apply then v else 0) && key in r
    ensures forall k :: k != key ==> SameAt(s, r, k)
  {
    if apply then IncrementBase(s, key, v) else EnsureCounter(s, key)
  }

  /** The inner loop over the request's metrics for one outcome. */
  function BumpAll(s: Store, prefix: string, tag: string, o: string, apply: bool, d: Dict, ms: seq<string>): Store
  {
    if ms == [] then s
    else
      var m := ms[|ms| - 1];
      Bump(BumpAll(s, prefix, tag, o, apply, d, ms[..|ms| - 1]), OutcomeKey(prefix, o, m, tag), d.Get(m), apply)
  }

  /** The outer loop over the outcomes. */
  function BumpOutcomes(s: Store, prefix: string, tag: string, d: Dict, success: bool, os: seq<string>): Store
  {
    if os == [] then s
    else
      var o := os[|os| - 1];
      BumpAll(BumpOutcomes(s, prefix, tag, d, success, os[..|os| - 1]), prefix, tag, o, Matches(o, success), d, d.keys)
  }

  /** `incrementApcuRequestMetrics(d, success)`. */
  function IncrementRequest(s: Store, prefix: string, tag: string, d: Dict, success: bool): Store {
    BumpOutcomes(Named(s, prefix, tag, d), prefix, tag, d, success, Outcomes)
  }

  /** Within one generation and tag, the counter key determines the metric name. */
  lemma CounterNameInjective(prefix: string, n1: string, n2: string, tag: string)
    requires CounterKey(prefix, n1, tag) == CounterKey(prefix, n2, tag)
    ensures n1 == n2
  {
    var k := CounterKey(prefix, n1, tag);
    assert n1 == k[|prefix| + 1..|prefix| + 1 + |n1|];
  }

  lemma OutcomeKeyInjective(prefix: string, o: string, m1: string, m2: string, tag: string)
    requires OutcomeKey(prefix, o, m1, tag) == OutcomeKey(prefix, o, m2, tag)
    ensures m1 == m2
  {
    CounterNameInjective(prefix, OutcomeName(o, m1), OutcomeName(o, m2), tag);
    var n := OutcomeName(o, m1);
    assert m1 == n[|o| + 1..];
  }

  /** A success counter and a fail counter are never the same key. */
  lemma OutcomesDiffer(prefix: string, m1: string, m2: string, t1: string, t2: string)
    ensures OutcomeKey(prefix, "success", m1, t1) != OutcomeKey(prefix, "fail", m2, t2)
  {
    assert OutcomeKey(prefix, "success", m1, t1)[|prefix| + 1] == 's';
    assert OutcomeKey(prefix, "fail", m2, t2)[|prefix| + 1] == 'f';
  }

  /** The inner loop touches only the counters of the metrics it visits. */
  lemma {:induction false} BumpAllFrame(s: Store, prefix: string, tag: string, o: string, apply: bool, d: Dict, ms: seq<string>, k: string)
    requires forall m :: m in ms ==> k != OutcomeKey(prefix, o, m, tag)
    ensures SameAt(s, BumpAll(s, prefix, tag, o, apply, d, ms), k)
  {
    if ms != [] {
      BumpAllFrame(s, prefix, tag, o, apply, d, ms[..|ms| - 1], k);
    }
  }

  /** Each visited counter gains the metric's value when `apply`, and nothing otherwise; it exists afterwards. */
  lemma {:induction false} BumpAllHits(s: Store, prefix: string, tag: string, o: string, apply: bool, d: Dict, ms: seq<string>, m: string)
    requires NoDuplicates(ms) && m in ms
    ensures var r := BumpAll(s, prefix, tag, o, apply, d, ms);
      && NumberAt(r, OutcomeKey(prefix, o, m, tag)) == NumberAt(s, OutcomeKey(prefix, o, m, tag)) + (if apply then d.Get(m) else 0)
      && OutcomeKey(prefix, o, m, tag) in r
  {
    var init := ms[..|ms| - 1];
    var last := ms[|ms| - 1];
    if m == last {
      forall m' | m' in init ensures OutcomeKey(prefix, o, m, tag) != OutcomeKey(prefix, o, m', tag) {
        if OutcomeKey(prefix, o, m, tag) == OutcomeKey(prefix, o, m', tag) {
          OutcomeKeyInjective(prefix, o, m, m', tag);
          assert false;
        }
      }
      BumpAllFrame(s, prefix, tag, o, apply, d, init, OutcomeKey(prefix, o, m, tag));
    } else {
      assert m in init;
      BumpAllHits(s, prefix, tag, o, apply, d, init, m);
      if OutcomeKey(prefix, o, m, tag) == OutcomeKey(prefix, o, last, tag) {
        OutcomeKeyInjective(prefix, o, m, last, tag);
      }
    }
  }

  /** Keys of other kinds, other tags' counters and other outcomes are left alone by the outcome loops. */
  lemma {:induction false} BumpOutcomesFrame(s: Store, prefix: string, tag: string, d: Dict, success: bool, os: seq<string>, k: string)
    requires forall o, m :: o in os && m in d.keys ==> k != OutcomeKey(prefix, o, m, tag)
    ensures SameAt(s, BumpOutcomes(s, prefix, tag, d, success, os), k)
  {
    if os != [] {
      var init := os[..|os| - 1];
      var o := os[|os| - 1];
      BumpOutcomesFrame(s, prefix, tag, d, success, init, k);
      BumpAllFrame(BumpOutcomes(s, prefix, tag, d, success, init), prefix, tag, o, Matches(o, success), d, d.keys, k);
    }
  }

  /** A key the two name lists hold reads the same after the loops when they leave it alone. */
  lemma SameReads(s: Store, r: Store, k: string)
    requires SameAt(s, r, k)
    ensures NumberAt(r, k) == NumberAt(s, k) && NamesAt(r, k) == NamesAt(s, k)
  {
  }

  /** The outcome loop runs the success pass, then the fail pass. */
  lemma TwoPasses(s: Store, prefix: string, tag: string, d: Dict, success: bool)
    ensures BumpOutcomes(s, prefix, tag, d, success, Outcomes)
         == BumpAll(BumpAll(s, prefix, tag, "success", success, d, d.keys), prefix, tag, "fail", !success, d, d.keys)
  {
    assert Outcomes[..1] == ["success"] && Outcomes[1] == "fail";
    assert Matches("success", success) == success && Matches("fail", success) == !success;
    assert ["success"][..0] == [];
    assert BumpOutcomes(s, prefix, tag, d, success, ["success"]) == BumpAll(s, prefix, tag, "success", success, d, d.keys);
  }

  /** The name lists written before the outcome loops. */
  function Named(s: Store, prefix: string, tag: string, d: Dict): Store {
    RecordNames(RecordName(s, TagsKey(prefix), tag), MetricsKey(prefix), d.keys)
  }

  lemma NamedKeepsCounters(s: Store, prefix: string, tag: string, d: Dict, name: string, t: string)
    ensures SameAt(s, Named(s, prefix, tag, d), CounterKey(prefix, name, t))
  {
    var k := CounterKey(prefix, name, t);
    KindsDiffer(prefix, prefix, name, t, "", true, 0);
    var r1 := RecordName(s, TagsKey(prefix), tag);
    assert SameAt(s, r1, k);
    assert SameAt(r1, Named(s, prefix, tag, d), k);
  }

  /**
   * After `incrementApcuRequestMetrics(d, success)`, each metric's counter
   * under the matching outcome has grown by its value; the counter under the
   * other outcome exists and holds what it held before.
   */
  lemma RequestIncrement(s: Store, prefix: string, tag: string, d: Dict, success: bool, m: string)
    requires d.Valid() && m in d.keys
    ensures var r := IncrementRequest(s, prefix, tag, d, success);
      && NumberAt(r, OutcomeKey(prefix, "success", m, tag)) == NumberAt(s, OutcomeKey(prefix, "success", m, tag)) + (if success then d.Get(m) else 0)
      && NumberAt(r, OutcomeKey(prefix, "fail", m, tag)) == NumberAt(s, OutcomeKey(prefix, "fail", m, tag)) + (if success then 0 else d.Get(m))
      && OutcomeKey(prefix, "success", m, tag) in r && OutcomeKey(prefix, "fail", m, tag) in r
  {
    var named := Named(s, prefix, tag, d);
    var sk := OutcomeKey(prefix, "success", m, tag);
    var fk := OutcomeKey(prefix, "fail", m, tag);
    NamedKeepsCounters(s, prefix, tag, d, OutcomeName("success", m), tag);
    NamedKeepsCounters(s, prefix, tag, d, OutcomeName("fail", m), tag);
    SameReads(s, named, sk);
    SameReads(s, named, fk);
    TwoPasses(named, prefix, tag, d, success);
    var afterSuccess := BumpAll(named, prefix, tag, "success", success, d, d.keys);
    BumpAllHits(named, prefix, tag, "success", success, d, d.keys, m);
    forall m' | m' in d.keys ensures fk != OutcomeKey(prefix, "success", m', tag) {
      OutcomesDiffer(prefix, m', m, tag, tag);
    }
    BumpAllFrame(named, prefix, tag, "success", success, d, d.keys, fk);
    SameReads(named, afterSuccess, fk);
    BumpAllHits(afterSuccess, prefix, tag, "fail", !success, d, d.keys, m);
    forall m' | m' in d.keys ensures sk != OutcomeKey(prefix, "fail", m', tag) {
      OutcomesDiffer(prefix, m, m', tag, tag);
    }
    BumpAllFrame(afterSuccess, prefix, tag, "fail", !success, d, d.keys, sk);
    SameReads(afterSuccess, IncrementRequest(s, prefix, tag, d, success), sk);
  }

  /**
   * `incrementApcuRequestMetrics` changes no key other than the two name
   * lists and the request's outcome counters under the current tag.
   */
  lemma RequestFrame(s: Store, prefix: string, tag: string, d: Dict, success: bool, k: string)
    requires k != TagsKey(prefix) && k != MetricsKey(prefix)
    requires forall m :: m in d.keys ==> k != OutcomeKey(prefix, "success", m, tag) && k != OutcomeKey(prefix, "fail", m, tag)
    ensures SameAt(s, IncrementRequest(s, prefix, tag, d, success), k)
  {
    var named := Named(s, prefix, tag, d);
    var r1 := RecordName(s, TagsKey(prefix), tag);
    assert SameAt(s, r1, k) && SameAt(r1, named, k);
    TwoPasses(named, prefix, tag, d, success);
    var afterSuccess := BumpAll(named, prefix, tag, "success", success, d, d.keys);
    BumpAllFrame(named, prefix, tag, "success", success, d, d.keys, k);
    BumpAllFrame(afterSuccess, prefix, tag, "fail", !success, d, d.keys, k);
  }

  /** The tag list and the metric-name list gain the request's tag and metric names. */
  lemma RequestRecordsNames(s: Store, prefix: string, tag: string, d: Dict, success: bool)
    ensures var r := IncrementRequest(s, prefix, tag, d, success);
      && NamesAt(r, TagsKey(prefix)) == AddName(NamesAt(s, TagsKey(prefix)), tag)
      && NamesAt(r, MetricsKey(prefix)) == AddNames(NamesAt(s, MetricsKey(prefix)), d.keys)
  {
    var r1 := RecordName(s, TagsKey(prefix), tag);
    var named := Named(s, prefix, tag, d);
    var r := IncrementRequest(s, prefix, tag, d, success);
    KindsDiffer(prefix, prefix, "", "", "", true, 0);
    assert SameAt(s, r1, MetricsKey(prefix)) && SameAt(r1, named, TagsKey(prefix));
    SameReads(s, r1, MetricsKey(prefix));
    SameReads(r1, named, TagsKey(prefix));
    forall m | m in d.keys
      ensures TagsKey(prefix) != OutcomeKey(prefix, "success", m, tag) && TagsKey(prefix) != OutcomeKey(prefix, "fail", m, tag)
      ensures MetricsKey(prefix) != OutcomeKey(prefix, "success", m, tag) && MetricsKey(prefix) != OutcomeKey(prefix, "fail", m, tag)
    {
      KindsDiffer(prefix, prefix, OutcomeName("success", m), tag, "", true, 0);
      KindsDiffer(prefix, prefix, OutcomeName("fail", m), tag, "", true, 0);
    }
    TwoPasses(named, prefix, tag, d, success);
    var afterSuccess := BumpAll(named, prefix, tag, "success", success, d, d.keys);
    BumpAllFrame(named, prefix, tag, "success", success, d, d.keys, TagsKey(prefix));
    BumpAllFrame(afterSuccess, prefix, tag, "fail", !success, d, d.keys, TagsKey(prefix));
    BumpAllFrame(named, prefix, tag, "success", success, d, d.keys, MetricsKey(prefix));
    BumpAllFrame(afterSuccess, prefix, tag, "fail", !success, d, d.keys, MetricsKey(prefix));
    assert SameAt(named, r, TagsKey(prefix)) && SameAt(named, r, MetricsKey(prefix));
    SameReads(named, r, TagsKey(prefix));
    SameReads(named, r, MetricsKey(prefix));
  }
}
