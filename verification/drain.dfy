/**
 * The drain (`saveApcuToFile`) as functions: the slots it visits, what each
 * visit does to the store and to the log file, and what a whole drain
 * leaves behind.
 */
module Drain {
  import opened Php
  import opened Apcu
  import opened Keys
  import opened Aggregation

  /** The base metrics the drain reports, in order (the logger's `baseMetrics`). */
  const BaseMetrics: seq<string> := [
    "requests_hit_count",
    "requests_start_count",
    "requests_finish_success_count",
    "requests_finish_exception_count",
    "logging_max_memory",
    "logging_execution_time",
    "system_cpu_usage",
    "system_load_average",
    "system_memory_usage",
    "system_memory_max"
  ]

  /** One row of a log file: `name,tag,value`. */
  function Line(name: string, tag: string, value: int): string {
    name + "," + tag + "," + IntToString(value)
  }

  /** The closing row that counts the generation's tags. */
  function TagsCountRows(count: nat): (rows: seq<string>)
    ensures |rows| <= 1 && (rows != [] <==> count > 0)
  {
    if count > 0 then [Line("logging_tags_count", "UNKNOWN", count)] else []
  }

  /** One (reported name, tag) pair the drain looks up; its counter is `CounterKey(prefix, name, tag)`. */
  datatype Slot = Slot(name: string, tag: string)

  function KeyOf(prefix: string, sl: Slot): string {
    CounterKey(prefix, sl.name, sl.tag)
  }

  function KeysOf(prefix: string, slots: seq<Slot>): (ks: seq<string>)
    ensures |ks| == |slots| && forall i :: 0 <= i < |slots| ==> ks[i] == KeyOf(prefix, slots[i])
  {
    seq(|slots|, i requires 0 <= i < |slots| => KeyOf(prefix, slots[i]))
  }

  /** The store and the rows written so far. */
  datatype Drained = Drained(store: Store, rows: seq<string>)

  /**
   * One lookup: a non-zero counter becomes a row and is deleted; a zero or
   * absent counter (`apcu_fetch` is falsy) is neither written nor deleted.
   */
  function Visit(st: Drained, prefix: string, sl: Slot): Drained {
    var key := KeyOf(prefix, sl);
    var v := NumberAt(st.store, key);
    if v != 0 then Drained(st.store - {key}, st.rows + [Line(sl.name, sl.tag, v)]) else st
  }

  /** The lookups in order. */
  function DrainSlots(st: Drained, prefix: string, slots: seq<Slot>): Drained {
    if slots == [] then st else Visit(DrainSlots(st, prefix, slots[..|slots| - 1]), prefix, slots[|slots| - 1])
  }

  /** The innermost loop: one reported name under each tag. */
  function TagSlots(name: string, tags: seq<string>): (r: seq<Slot>)
    ensures |r| == |tags| && forall i :: 0 <= i < |tags| ==> r[i] == Slot(name, tags[i])
  {
    seq(|tags|, i requires 0 <= i < |tags| => Slot(name, tags[i]))
  }

  /** The base-metric loops: each base metric under each tag. */
  function BaseSlots(names: seq<string>, tags: seq<string>): seq<Slot> {
    if names == [] then [] else BaseSlots(names[..|names| - 1], tags) + TagSlots(names[|names| - 1], tags)
  }

  /** The outcome loop for one request metric. */
  function OutcomeSlots(m: string, os: seq<string>, tags: seq<string>): seq<Slot> {
    if os == [] then [] else OutcomeSlots(m, os[..|os| - 1], tags) + TagSlots(OutcomeName(os[|os| - 1], m), tags)
  }

  /** The request-metric loops: each metric under each outcome under each tag. */
  function RequestSlots(metrics: seq<string>, tags: seq<string>): seq<Slot> {
    if metrics == [] then [] else RequestSlots(metrics[..|metrics| - 1], tags) + OutcomeSlots(metrics[|metrics| - 1], Outcomes, tags)
  }

  /** Every lookup of one drain, in the order the loops make them. */
  function AllSlots(base: seq<string>, metrics: seq<string>, tags: seq<string>): seq<Slot> {
    BaseSlots(base, tags) + RequestSlots(metrics, tags)
  }

  /**
   * `saveApcuToFile`: read the tag and metric-name lists (creating them
   * empty when absent), drain every slot into `file`, append the tag-count
   * row, and delete the tag list (the metric-name list stays).
   */
  function SaveToFile(w: World, prefix: string, file: LogFile): World {
    var tags := TagsRead(w.apcu, prefix);
    var d := DrainSlots(Drained(WithLists(w.apcu, prefix), []), prefix, AllSlots(BaseMetrics, MetricsRead(w.apcu, prefix), tags));
    World(d.store - {TagsKey(prefix)}, Appended(w.logs, file, d.rows + TagsCountRows(|tags|)))
  }

  /** `SaveToFile` with `base` in place of the list of base metrics it reports. */
  function SaveToFileReporting(w: World, base: seq<string>, prefix: string, file: LogFile): World {
    var tags := TagsRead(w.apcu, prefix);
    var d := DrainSlots(Drained(WithLists(w.apcu, prefix), []), prefix, AllSlots(base, MetricsRead(w.apcu, prefix), tags));
    World(d.store - {TagsKey(prefix)}, Appended(w.logs, file, d.rows + TagsCountRows(|tags|)))
  }

  // ---------------------------------------------------------------- slots

  /** One more lookup at the end. */
  lemma DrainStep(st: Drained, prefix: string, done: seq<Slot>, sl: Slot)
    ensures DrainSlots(st, prefix, done + [sl]) == Visit(DrainSlots(st, prefix, done), prefix, sl)
  {
    assert (done + [sl])[..|done|] == done;
  }

  lemma TagSlotsStep(name: string, tags: seq<string>, j: int)
    requires 0 <= j < |tags|
    ensures TagSlots(name, tags[..j + 1]) == TagSlots(name, tags[..j]) + [Slot(name, tags[j])]
  {
  }

  lemma BaseSlotsStep(names: seq<string>, tags: seq<string>, i: int)
    requires 0 <= i < |names|
    ensures BaseSlots(names[..i + 1], tags) == BaseSlots(names[..i], tags) + TagSlots(names[i], tags)
  {
    assert names[..i + 1][..i] == names[..i];
  }

  lemma OutcomeSlotsStep(m: string, os: seq<string>, tags: seq<string>, k: int)
    requires 0 <= k < |os|
    ensures OutcomeSlots(m, os[..k + 1], tags) == OutcomeSlots(m, os[..k], tags) + TagSlots(OutcomeName(os[k], m), tags)
  {
    assert os[..k + 1][..k] == os[..k];
  }

  lemma RequestSlotsStep(metrics: seq<string>, tags: seq<string>, i: int)
    requires 0 <= i < |metrics|
    ensures RequestSlots(metrics[..i + 1], tags) == RequestSlots(metrics[..i], tags) + OutcomeSlots(metrics[i], Outcomes, tags)
  {
    assert metrics[..i + 1][..i] == metrics[..i];
  }

  lemma {:induction false} DrainConcat(st: Drained, prefix: string, a: seq<Slot>, b: seq<Slot>)
    ensures DrainSlots(st, prefix, a + b) == DrainSlots(DrainSlots(st, prefix, a), prefix, b)
    decreases |b|
  {
    if b != [] {
      assert (a + b)[..|a + b| - 1] == a + b[..|b| - 1];
      DrainConcat(st, prefix, a, b[..|b| - 1]);
    } else {
      assert a + b == a;
    }
  }

  lemma TagSlotsMember(name: string, tags: seq<string>, sl: Slot)
    ensures sl in TagSlots(name, tags) <==> sl.name == name && sl.tag in tags
  {
    var r := TagSlots(name, tags);
    if sl.name == name && sl.tag in tags {
      var i :| 0 <= i < |tags| && tags[i] == sl.tag;
      assert r[i] == sl;
    }
  }

  lemma {:induction false} BaseSlotsMember(names: seq<string>, tags: seq<string>, sl: Slot)
    ensures sl in BaseSlots(names, tags) <==> sl.name in names && sl.tag in tags
  {
    if names != [] {
      var init := names[..|names| - 1];
      BaseSlotsMember(init, tags, sl);
      TagSlotsMember(names[|names| - 1], tags, sl);
      assert names == init + [names[|names| - 1]];
    }
  }

  /** `name` is `success_<m>` or `fail_<m>` for one of `metrics`. */
  predicate IsRequestName(name: string, metrics: seq<string>) {
    (|name| >= 8 && name[..8] == "success_" && name[8..] in metrics)
    || (|name| >= 5 && name[..5] == "fail_" && name[5..] in metrics)
  }

  lemma OutcomeNames(m: string, n: string)
    ensures n == OutcomeName("success", m) <==> |n| >= 8 && n[..8] == "success_" && n[8..] == m
    ensures n == OutcomeName("fail", m) <==> |n| >= 5 && n[..5] == "fail_" && n[5..] == m
  {
    if |n| >= 8 && n[..8] == "success_" && n[8..] == m {
      assert n == n[..8] + n[8..];
    }
    if |n| >= 5 && n[..5] == "fail_" && n[5..] == m {
      assert n == n[..5] + n[5..];
    }
  }

  lemma OutcomeSlotsBoth(m: string, tags: seq<string>)
    ensures OutcomeSlots(m, Outcomes, tags) == TagSlots(OutcomeName("success", m), tags) + TagSlots(OutcomeName("fail", m), tags)
  {
    assert Outcomes[..1] == ["success"] && Outcomes[1] == "fail" && ["success"][..0] == [];
    assert OutcomeSlots(m, ["success"], tags) == [] + TagSlots(OutcomeName("success", m), tags);
  }

  lemma {:induction false} RequestSlotsMember(metrics: seq<string>, tags: seq<string>, sl: Slot)
    ensures sl in RequestSlots(metrics, tags) <==> IsRequestName(sl.name, metrics) && sl.tag in tags
  {
    if metrics != [] {
      var init := metrics[..|metrics| - 1];
      var m := metrics[|metrics| - 1];
      assert metrics == init + [m];
      RequestSlotsMember(init, tags, sl);
      OutcomeSlotsBoth(m, tags);
      TagSlotsMember(OutcomeName("success", m), tags, sl);
      TagSlotsMember(OutcomeName("fail", m), tags, sl);
      OutcomeNames(m, sl.name);
    }
  }

  lemma NoDupConcat<T>(a: seq<T>, b: seq<T>)
    requires NoDuplicates(a) && NoDuplicates(b)
    requires forall x :: x in a ==> x !in b
    ensures NoDuplicates(a + b)
  {
    var c := a + b;
    forall i, j | 0 <= i < j < |c| ensures c[i] != c[j] {
      if i < |a| && j >= |a| {
        assert c[i] in a && c[j] == b[j - |a|];
      } else if i >= |a| {
        assert c[i] == b[i - |a|] && c[j] == b[j - |a|];
      }
    }
  }

  lemma TagSlotsDistinct(name: string, tags: seq<string>)
    requires NoDuplicates(tags)
    ensures NoDuplicates(TagSlots(name, tags))
  {
  }

  lemma {:induction false} BaseSlotsDistinct(names: seq<string>, tags: seq<string>)
    requires NoDuplicates(names) && NoDuplicates(tags)
    ensures NoDuplicates(BaseSlots(names, tags))
  {
    if names != [] {
      var init := names[..|names| - 1];
      var last := names[|names| - 1];
      BaseSlotsDistinct(init, tags);
      TagSlotsDistinct(last, tags);
      forall sl | sl in BaseSlots(init, tags) ensures sl !in TagSlots(last, tags) {
        BaseSlotsMember(init, tags, sl);
        TagSlotsMember(last, tags, sl);
        if sl.name == last {
          assert false;
        }
      }
      NoDupConcat(BaseSlots(init, tags), TagSlots(last, tags));
    }
  }

  lemma {:induction false} RequestSlotsDistinct(metrics: seq<string>, tags: seq<string>)
    requires NoDuplicates(metrics) && NoDuplicates(tags)
    ensures NoDuplicates(RequestSlots(metrics, tags))
  {
    if metrics != [] {
      var init := metrics[..|metrics| - 1];
      var m := metrics[|metrics| - 1];
      var sn := OutcomeName("success", m);
      var fn := OutcomeName("fail", m);
      RequestSlotsDistinct(init, tags);
      TagSlotsDistinct(sn, tags);
      TagSlotsDistinct(fn, tags);
      forall sl | sl in TagSlots(sn, tags) ensures sl !in TagSlots(fn, tags) {
        TagSlotsMember(sn, tags, sl);
        TagSlotsMember(fn, tags, sl);
        assert sn[0] != fn[0];
      }
      NoDupConcat(TagSlots(sn, tags), TagSlots(fn, tags));
      OutcomeSlotsBoth(m, tags);
      forall sl | sl in RequestSlots(init, tags) ensures sl !in OutcomeSlots(m, Outcomes, tags) {
        RequestSlotsMember(init, tags, sl);
        TagSlotsMember(sn, tags, sl);
        TagSlotsMember(fn, tags, sl);
        OutcomeNames(m, sl.name);
        if sl.name == sn || sl.name == fn {
          assert false;
        }
      }
      NoDupConcat(RequestSlots(init, tags), OutcomeSlots(m, Outcomes, tags));
    }
  }

  /** No base metric is reported under a request-metric name: none starts with `su` or `f`. */
  predicate BaseNamesApart(base: seq<string>) {
    forall i :: 0 <= i < |base| ==> |base[i]| >= 2 && base[i][0] != 'f' && !(base[i][0] == 's' && base[i][1] == 'u')
  }

  lemma BaseMetricsApart()
    ensures BaseNamesApart(BaseMetrics) && NoDuplicates(BaseMetrics)
  {
    forall i | 0 <= i < |BaseMetrics| ensures |BaseMetrics[i]| >= 2 && BaseMetrics[i][0] != 'f' && !(BaseMetrics[i][0] == 's' && BaseMetrics[i][1] == 'u') {
    }
    forall i, j | 0 <= i < j < |BaseMetrics| ensures BaseMetrics[i] != BaseMetrics[j] {
    }
  }

  /** A drain looks up every (name, tag) pair once. */
  lemma AllSlotsDistinct(base: seq<string>, metrics: seq<string>, tags: seq<string>)
    requires BaseNamesApart(base)
    requires NoDuplicates(base) && NoDuplicates(metrics) && NoDuplicates(tags)
    ensures NoDuplicates(AllSlots(base, metrics, tags))
  {
    BaseSlotsDistinct(base, tags);
    RequestSlotsDistinct(metrics, tags);
    forall sl | sl in BaseSlots(base, tags) ensures sl !in RequestSlots(metrics, tags) {
      BaseSlotsMember(base, tags, sl);
      RequestSlotsMember(metrics, tags, sl);
      var i :| 0 <= i < |base| && base[i] == sl.name;
      var n := sl.name;
      if |n| >= 8 && n[..8] == "success_" {
        assert n[..8][0] == n[0] && n[..8][1] == n[1];
      }
      if |n| >= 5 && n[..5] == "fail_" {
        assert n[..5][0] == n[0];
      }
    }
    NoDupConcat(BaseSlots(base, tags), RequestSlots(metrics, tags));
  }

  /** Every slot's tag is one of `tags`. */
  lemma AllSlotsTags(base: seq<string>, metrics: seq<string>, tags: seq<string>, sl: Slot)
    requires sl in AllSlots(base, metrics, tags)
    ensures sl.tag in tags
    ensures sl.name in base || IsRequestName(sl.name, metrics)
  {
    BaseSlotsMember(base, tags, sl);
    RequestSlotsMember(metrics, tags, sl);
  }

  /** With brace-free tags, distinct slots have distinct counter keys. */
  lemma KeysDistinct(prefix: string, slots: seq<Slot>)
    requires NoDuplicates(slots)
    requires forall sl :: sl in slots ==> BraceFree(sl.tag)
    ensures NoDuplicates(KeysOf(prefix, slots))
  {
    var ks := KeysOf(prefix, slots);
    forall i, j | 0 <= i < j < |ks| ensures ks[i] != ks[j] {
      if ks[i] == ks[j] {
        CounterKeyInjective(prefix, slots[i].name, slots[i].tag, slots[j].name, slots[j].tag);
        assert false;
      }
    }
  }

  /** No slot is looked up when there are no tags. */
  lemma {:induction false} NoTagsNoSlots(base: seq<string>, metrics: seq<string>)
    ensures AllSlots(base, metrics, []) == []
  {
    forall names: seq<string> ensures BaseSlots(names, []) == [] {
      BaseSlotsEmpty(names);
    }
    RequestSlotsEmpty(metrics);
  }

  lemma {:induction false} BaseSlotsEmpty(names: seq<string>)
    ensures BaseSlots(names, []) == []
  {
    if names != [] {
      BaseSlotsEmpty(names[..|names| - 1]);
    }
  }

  lemma {:induction false} RequestSlotsEmpty(metrics: seq<string>)
    ensures RequestSlots(metrics, []) == []
  {
    if metrics != [] {
      RequestSlotsEmpty(metrics[..|metrics| - 1]);
      OutcomeSlotsBoth(metrics[|metrics| - 1], []);
    }
  }

  // ---------------------------------------------------------------- drains

  /**
   * After the lookups every looked-up counter reads 0, keys that were not
   * looked up are untouched, and rows are only ever appended.
   */
  lemma {:induction false} DrainEmpties(st: Drained, prefix: string, slots: seq<Slot>)
    ensures var r := DrainSlots(st, prefix, slots);
      && (forall i :: 0 <= i < |slots| ==> NumberAt(r.store, KeyOf(prefix, slots[i])) == 0)
      && (forall k :: k !in KeysOf(prefix, slots) ==> SameAt(st.store, r.store, k))
      && st.rows <= r.rows
  {
    if slots != [] {
      var init := slots[..|slots| - 1];
      DrainEmpties(st, prefix, init);
      var mid := DrainSlots(st, prefix, init);
      var r := DrainSlots(st, prefix, slots);
      var last := KeyOf(prefix, slots[|slots| - 1]);
      assert forall k :: k != last ==> SameAt(mid.store, r.store, k);
      forall i | 0 <= i < |slots| ensures NumberAt(r.store, KeyOf(prefix, slots[i])) == 0 {
        if i < |init| {
          assert slots[i] == init[i];
        }
      }
      forall k | k !in KeysOf(prefix, slots) ensures SameAt(st.store, r.store, k) {
        assert KeysOf(prefix, init) == KeysOf(prefix, slots)[..|init|];
        assert KeysOf(prefix, slots)[|init|] == last;
      }
    }
  }

  /** The rows for the non-zero counters among the slots, in slot order. */
  function NonZeroRows(s: Store, prefix: string, slots: seq<Slot>): seq<string> {
    if slots == [] then []
    else
      var sl := slots[|slots| - 1];
      var v := NumberAt(s, KeyOf(prefix, sl));
      NonZeroRows(s, prefix, slots[..|slots| - 1]) + (if v != 0 then [Line(sl.name, sl.tag, v)] else [])
  }

  /** The keys of the non-zero counters among the slots. */
  function NonZeroKeys(s: Store, prefix: string, slots: seq<Slot>): set<string> {
    if slots == [] then {}
    else
      var k := KeyOf(prefix, slots[|slots| - 1]);
      NonZeroKeys(s, prefix, slots[..|slots| - 1]) + (if NumberAt(s, k) != 0 then {k} else {})
  }

  lemma {:induction false} NonZeroKeysAmong(s: Store, prefix: string, slots: seq<Slot>, k: string)
    requires k in NonZeroKeys(s, prefix, slots)
    ensures k in KeysOf(prefix, slots)
  {
    var init := slots[..|slots| - 1];
    if k in NonZeroKeys(s, prefix, init) {
      NonZeroKeysAmong(s, prefix, init, k);
      var i :| 0 <= i < |init| && KeysOf(prefix, init)[i] == k;
      assert KeysOf(prefix, slots)[i] == k;
    } else {
      assert KeysOf(prefix, slots)[|slots| - 1] == k;
    }
  }

  /**
   * When the slots name distinct counters, the drain writes exactly one row
   * `name,tag,value` per non-zero counter, in slot order, and deletes
   * exactly those counters.
   */
  lemma {:induction false} DrainExact(st: Drained, prefix: string, slots: seq<Slot>)
    requires NoDuplicates(KeysOf(prefix, slots))
    ensures DrainSlots(st, prefix, slots)
         == Drained(st.store - NonZeroKeys(st.store, prefix, slots), st.rows + NonZeroRows(st.store, prefix, slots))
  {
    if slots != [] {
      var init := slots[..|slots| - 1];
      var sl := slots[|slots| - 1];
      var k := KeyOf(prefix, sl);
      var v := NumberAt(st.store, k);
      var nz := NonZeroKeys(st.store, prefix, init);
      assert KeysOf(prefix, init) == KeysOf(prefix, slots)[..|init|];
      DrainExact(st, prefix, init);
      LastKeyIsNew(st.store, prefix, slots);
      var mid := DrainSlots(st, prefix, init);
      assert mid.store == st.store - nz;
      assert NumberAt(mid.store, k) == v;
      if v != 0 {
        assert NonZeroKeys(st.store, prefix, slots) == nz + {k};
        assert mid.store - {k} == st.store - (nz + {k});
      }
    }
  }

  /** With distinct keys, the last slot's counter was not among the earlier non-zero ones. */
  lemma LastKeyIsNew(s: Store, prefix: string, slots: seq<Slot>)
    requires slots != [] && NoDuplicates(KeysOf(prefix, slots))
    ensures KeyOf(prefix, slots[|slots| - 1]) !in NonZeroKeys(s, prefix, slots[..|slots| - 1])
  {
    var init := slots[..|slots| - 1];
    var k := KeyOf(prefix, slots[|slots| - 1]);
    if k in NonZeroKeys(s, prefix, init) {
      NonZeroKeysAmong(s, prefix, init, k);
      assert false;
    }
  }

  // ---------------------------------------------------------------- whole drain

  /** The tag and metric-name lists a drain reads. */
  function TagsRead(s: Store, prefix: string): seq<string> {
    NamesAt(s, TagsKey(prefix))
  }

  function MetricsRead(s: Store, prefix: string): seq<string> {
    NamesAt(s, MetricsKey(prefix))
  }

  /** The name lists hold no duplicates and no tag can be mistaken for part of a key. */
  predicate ListsSound(s: Store, prefix: string) {
    NoDuplicates(TagsRead(s, prefix)) && NoDuplicates(MetricsRead(s, prefix))
    && forall t :: t in TagsRead(s, prefix) ==> BraceFree(t)
  }

  /** The store with the tag and metric-name lists created empty when absent. */
  function WithLists(s: Store, prefix: string): (r: Store)
    ensures TagsRead(r, prefix) == TagsRead(s, prefix) && MetricsRead(r, prefix) == MetricsRead(s, prefix)
    ensures TagsKey(prefix) in r && MetricsKey(prefix) in r
    ensures forall k :: k != TagsKey(prefix) && k != MetricsKey(prefix) ==> SameAt(s, r, k)
  {
    KindsDiffer(prefix, prefix, "", "", "", true, 0);
    var s1 := if TagsKey(prefix) in s then s else s[TagsKey(prefix) := Names([])];
    if MetricsKey(prefix) in s1 then s1 else s1[MetricsKey(prefix) := Names([])]
  }

  /**
   * What one drain writes: one row per non-zero counter among the slots, in
   * loop order, then `logging_tags_count,UNKNOWN,n` when there are n > 0
   * tags; no other file changes. The counters written are deleted, and so
   * is the tag list; every other key stays as it was.
   */
  lemma SaveToFileRows(w: World, prefix: string, file: LogFile)
    requires ListsSound(w.apcu, prefix)
    ensures var tags := TagsRead(w.apcu, prefix);
      var slots := AllSlots(BaseMetrics, MetricsRead(w.apcu, prefix), tags);
      var r := SaveToFile(w, prefix, file);
      && Lines(r.logs, file) == Lines(w.logs, file) + NonZeroRows(w.apcu, prefix, slots) + TagsCountRows(|tags|)
      && (forall g :: g != file ==> Lines(r.logs, g) == Lines(w.logs, g))
      && r.apcu == WithLists(w.apcu, prefix) - NonZeroKeys(w.apcu, prefix, slots) - {TagsKey(prefix)}
  {
    var tags := TagsRead(w.apcu, prefix);
    var metrics := MetricsRead(w.apcu, prefix);
    var slots := AllSlots(BaseMetrics, metrics, tags);
    var s2 := WithLists(w.apcu, prefix);
    var d := DrainSlots(Drained(s2, []), prefix, slots);
    var r := SaveToFile(w, prefix, file);
    assert r == World(d.store - {TagsKey(prefix)}, Appended(w.logs, file, d.rows + TagsCountRows(|tags|)));
    SlotKeysDistinct(w.apcu, prefix);
    DrainExact(Drained(s2, []), prefix, slots);
    SameSlotsReads(w.apcu, s2, prefix, slots);
    assert d.rows == NonZeroRows(w.apcu, prefix, slots);
  }

  /** With sound lists, a drain's slots name distinct counters. */
  lemma SlotKeysDistinct(s: Store, prefix: string)
    requires ListsSound(s, prefix)
    ensures NoDuplicates(KeysOf(prefix, AllSlots(BaseMetrics, MetricsRead(s, prefix), TagsRead(s, prefix))))
  {
    var tags := TagsRead(s, prefix);
    var metrics := MetricsRead(s, prefix);
    var slots := AllSlots(BaseMetrics, metrics, tags);
    BaseMetricsApart();
    AllSlotsDistinct(BaseMetrics, metrics, tags);
    forall sl | sl in slots ensures BraceFree(sl.tag) {
      AllSlotsTags(BaseMetrics, metrics, tags, sl);
    }
    KeysDistinct(prefix, slots);
  }

  /** Creating the lists does not change what the counters read. */
  lemma {:induction false} SameSlotsReads(s: Store, s2: Store, prefix: string, slots: seq<Slot>)
    requires s2 == WithLists(s, prefix)
    ensures NonZeroRows(s2, prefix, slots) == NonZeroRows(s, prefix, slots)
    ensures NonZeroKeys(s2, prefix, slots) == NonZeroKeys(s, prefix, slots)
  {
    if slots != [] {
      var sl := slots[|slots| - 1];
      KindsDiffer(prefix, prefix, sl.name, sl.tag, "", true, 0);
      assert SameAt(s, s2, KeyOf(prefix, sl));
      SameSlotsReads(s, s2, prefix, slots[..|slots| - 1]);
    }
  }

  /** After a drain every counter it looked up reads 0 and the tag list is gone. */
  lemma SaveToFileEmpties(w: World, prefix: string, file: LogFile)
    ensures var slots := AllSlots(BaseMetrics, MetricsRead(w.apcu, prefix), TagsRead(w.apcu, prefix));
      var r := SaveToFile(w, prefix, file);
      && (forall sl :: sl in slots ==> NumberAt(r.apcu, KeyOf(prefix, sl)) == 0)
      && TagsKey(prefix) !in r.apcu
  {
    ReportingEmpties(w, BaseMetrics, prefix, file);
    assert SaveToFile(w, prefix, file) == SaveToFileReporting(w, BaseMetrics, prefix, file);
  }

  /** Whatever base list it reports, a drain empties every counter it visits and deletes the tag list. */
  lemma ReportingEmpties(w: World, base: seq<string>, prefix: string, file: LogFile)
    ensures var slots := AllSlots(base, MetricsRead(w.apcu, prefix), TagsRead(w.apcu, prefix));
      var r := SaveToFileReporting(w, base, prefix, file);
      && (forall sl :: sl in slots ==> NumberAt(r.apcu, KeyOf(prefix, sl)) == 0)
      && TagsKey(prefix) !in r.apcu
  {
    var slots := AllSlots(base, MetricsRead(w.apcu, prefix), TagsRead(w.apcu, prefix));
    var s2 := WithLists(w.apcu, prefix);
    var d := DrainSlots(Drained(s2, []), prefix, slots);
    var r := SaveToFileReporting(w, base, prefix, file);
    assert r.apcu == d.store - {TagsKey(prefix)};
    DrainEmpties(Drained(s2, []), prefix, slots);
    forall sl | sl in slots ensures NumberAt(r.apcu, KeyOf(prefix, sl)) == 0 {
      var i :| 0 <= i < |slots| && slots[i] == sl;
      assert NumberAt(d.store, KeyOf(prefix, slots[i])) == 0;
    }
  }

  /** A drain keeps the metric-name list, and changes no key it did not look up other than the tag list. */
  lemma SaveToFileFrame(w: World, prefix: string, file: LogFile)
    ensures var slots := AllSlots(BaseMetrics, MetricsRead(w.apcu, prefix), TagsRead(w.apcu, prefix));
      var r := SaveToFile(w, prefix, file);
      && MetricsRead(r.apcu, prefix) == MetricsRead(w.apcu, prefix)
      && (forall k :: k !in KeysOf(prefix, slots) && k != TagsKey(prefix) && k != MetricsKey(prefix) ==> SameAt(w.apcu, r.apcu, k))
  {
    var slots := AllSlots(BaseMetrics, MetricsRead(w.apcu, prefix), TagsRead(w.apcu, prefix));
    var s2 := WithLists(w.apcu, prefix);
    var d := DrainSlots(Drained(s2, []), prefix, slots);
    var r := SaveToFile(w, prefix, file);
    assert r.apcu == d.store - {TagsKey(prefix)};
    SlotsFrame(w.apcu, prefix, slots);
    KindsDiffer(prefix, prefix, "", "", "", true, 0);
    assert SameAt(s2, r.apcu, MetricsKey(prefix));
    assert MetricsRead(r.apcu, prefix) == MetricsRead(s2, prefix);
    forall k | k !in KeysOf(prefix, slots) && k != TagsKey(prefix) && k != MetricsKey(prefix)
      ensures SameAt(w.apcu, r.apcu, k)
    {
      assert SameAt(w.apcu, d.store, k);
    }
  }

  /** The visits of a drain, after the two lists are created, keep the metric-name list and every key not looked up. */
  lemma SlotsFrame(s: Store, prefix: string, slots: seq<Slot>)
    ensures var s2 := WithLists(s, prefix);
      var d := DrainSlots(Drained(s2, []), prefix, slots);
      && SameAt(s2, d.store, MetricsKey(prefix))
      && (forall k :: k !in KeysOf(prefix, slots) && k != TagsKey(prefix) && k != MetricsKey(prefix) ==> SameAt(s, d.store, k))
  {
    var s2 := WithLists(s, prefix);
    var d := DrainSlots(Drained(s2, []), prefix, slots);
    DrainEmpties(Drained(s2, []), prefix, slots);
    forall i | 0 <= i < |slots| ensures KeysOf(prefix, slots)[i] != MetricsKey(prefix) {
      KindsDiffer(prefix, prefix, slots[i].name, slots[i].tag, "", true, 0);
    }
    forall k | k !in KeysOf(prefix, slots) && k != TagsKey(prefix) && k != MetricsKey(prefix)
      ensures SameAt(s, d.store, k)
    {
      assert SameAt(s, s2, k) && SameAt(s2, d.store, k);
    }
  }

  /** A second drain of the same generation writes nothing: the first one deleted the tag list. */
  lemma SecondDrainWritesNothing(w: World, prefix: string, file: LogFile, file2: LogFile)
    ensures var r := SaveToFile(SaveToFile(w, prefix, file), prefix, file2);
      r.logs == SaveToFile(w, prefix, file).logs
  {
    var w1 := SaveToFile(w, prefix, file);
    SaveToFileEmpties(w, prefix, file);
    assert TagsRead(w1.apcu, prefix) == [];
    NoTagsNoSlots(BaseMetrics, MetricsRead(w1.apcu, prefix));
  }

  /** A name the drain never reports: not a base metric and not `success_`/`fail_` anything. */
  predicate NeverReported(name: string) {
    name !in BaseMetrics && |name| >= 2 && name[0] != 'f' && !(name[0] == 's' && name[1] == 'u')
  }

  /**
   * A counter under a name the drain never reports survives every drain:
   * `requests_finish_fail_count` and the `system_disk_*` counters grow but
   * are never written out.
   */
  lemma NeverReportedSurvives(w: World, prefix: string, file: LogFile, name: string, tag: string)
    requires NeverReported(name) && BraceFree(tag)
    requires forall t :: t in TagsRead(w.apcu, prefix) ==> BraceFree(t)
    ensures SameAt(w.apcu, SaveToFile(w, prefix, file).apcu, CounterKey(prefix, name, tag))
  {
    var tags := TagsRead(w.apcu, prefix);
    var slots := AllSlots(BaseMetrics, MetricsRead(w.apcu, prefix), tags);
    var k := CounterKey(prefix, name, tag);
    forall i | 0 <= i < |slots| ensures KeysOf(prefix, slots)[i] != k {
      AllSlotsTags(BaseMetrics, MetricsRead(w.apcu, prefix), tags, slots[i]);
      if KeysOf(prefix, slots)[i] == k {
        CounterKeyInjective(prefix, slots[i].name, slots[i].tag, name, tag);
        assert false;
      }
    }
    KindsDiffer(prefix, prefix, name, tag, "", true, 0);
    SaveToFileFrame(w, prefix, file);
  }

  lemma UnreportedCounters()
    ensures NeverReported("requests_finish_fail_count")
    ensures NeverReported("system_disk_free_space") && NeverReported("system_disk_total_space")
  {
  }

  // ------------------------------------------------ counters never drained

  /**
   * The base metrics the logger increments: the four request counters of
   * `processEventHandler`, the two logging counters of `saveApcuData` and
   * the six samples of `collectSystemMetrics`.
   */
  const CountedBaseMetrics: seq<string> := [
    "requests_hit_count",
    "requests_start_count",
    "requests_finish_success_count",
    "requests_finish_fail_count",
    "logging_max_memory",
    "logging_execution_time",
    "system_cpu_usage",
    "system_load_average",
    "system_memory_usage",
    "system_memory_max",
    "system_disk_free_space",
    "system_disk_total_space"
  ]

  /**
   * The reported list and the incremented list disagree: three incremented
   * counters are not reported, and `requests_finish_exception_count` is
   * reported but nothing increments it.
   */
  lemma BaseListsDisagree()
    ensures "requests_finish_exception_count" in BaseMetrics && "requests_finish_exception_count" !in CountedBaseMetrics
    ensures forall name :: name in CountedBaseMetrics && name !in BaseMetrics <==>
      name == "requests_finish_fail_count" || name == "system_disk_free_space" || name == "system_disk_total_space"
  {
  }

  /**
   * As written, each of the three unreported counters keeps its value
   * through every drain, so it grows without bound.
   */
  lemma AsWrittenKeepsUnreportedCounters(w: World, prefix: string, file: LogFile, tag: string)
    requires BraceFree(tag)
    requires forall t :: t in TagsRead(w.apcu, prefix) ==> BraceFree(t)
    ensures var r := SaveToFile(w, prefix, file).apcu;
      && SameAt(w.apcu, r, CounterKey(prefix, "requests_finish_fail_count", tag))
      && SameAt(w.apcu, r, CounterKey(prefix, "system_disk_free_space", tag))
      && SameAt(w.apcu, r, CounterKey(prefix, "system_disk_total_space", tag))
  {
    UnreportedCounters();
    NeverReportedSurvives(w, prefix, file, "requests_finish_fail_count", tag);
    NeverReportedSurvives(w, prefix, file, "system_disk_free_space", tag);
    NeverReportedSurvives(w, prefix, file, "system_disk_total_space", tag);
  }

  /**
   * Corrected, the drain reports exactly the base metrics the logger
   * increments, and then every such counter under every listed tag is
   * emptied by the drain.
   */
  lemma CorrectedDrainEmptiesCountedMetrics(w: World, prefix: string, file: LogFile, name: string, tag: string)
    requires name in CountedBaseMetrics && tag in TagsRead(w.apcu, prefix)
    ensures NumberAt(SaveToFileReporting(w, CountedBaseMetrics, prefix, file).apcu, CounterKey(prefix, name, tag)) == 0
  {
    var tags := TagsRead(w.apcu, prefix);
    var sl := Slot(name, tag);
    BaseSlotsMember(CountedBaseMetrics, tags, sl);
    assert sl in AllSlots(CountedBaseMetrics, MetricsRead(w.apcu, prefix), tags);
    ReportingEmpties(w, CountedBaseMetrics, prefix, file);
  }
}
