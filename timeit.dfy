/** The timing instrumentation: `timeit`/`timeitmut` record one duration per call in a
    pending map, `update_timing_aggregator` drains that map into the `TimingAggregator`
    resource, which keeps per-description statistics (count, total, max, min, all
    samples), and `log_timings` reports average, max, min and median once a second and
    then starts afresh.

    Durations are whole nanoseconds. Clocks are parameters: the elapsed time of a call
    and the current time of a log are passed in. The process-wide mutex around the
    pending map becomes a plain object. */
module Timeit {
  import opened Sorting

  const NANOS_PER_SEC: nat := 1_000_000_000

  /** `Duration::new(u64::MAX, 999_999_999)`, the largest `Duration`:
      (2^64 - 1) seconds and 999 999 999 nanoseconds. */
  const MAX_DURATION: nat := 18_446_744_073_709_551_615_999_999_999

  /** A `Duration`, in nanoseconds. Its upper bound `MAX_DURATION` is stated where it is
      used (`IsDuration`), not as a subset type. */
  type Duration = nat

  predicate IsDuration(d: nat)
  {
    d <= MAX_DURATION
  }

  predicate AllDurations(s: seq<nat>)
  {
    forall i :: 0 <= i < |s| ==> IsDuration(s[i])
  }

  /** `TimingData`: the statistics of one description. */
  datatype TimingData = TimingData(count: nat, total: nat, max: Duration, min: Duration, values: seq<Duration>)

  /** `Summary` of one description as `log_timings` prints it. */
  datatype Summary = Summary(avg: nat, max: Duration, min: Duration, median: nat)

  function Sum(s: seq<Duration>): nat
  {
    if s == [] then 0 else Sum(s[..|s| - 1]) + s[|s| - 1]
  }

  function MaxOf(s: seq<Duration>): nat
    requires s != []
  {
    if |s| == 1 then s[0]
    else
      var m := MaxOf(s[..|s| - 1]);
      if m >= s[|s| - 1] then m else s[|s| - 1]
  }

  function MinOf(s: seq<Duration>): nat
    requires s != []
  {
    if |s| == 1 then s[0]
    else
      var m := MinOf(s[..|s| - 1]);
      if m <= s[|s| - 1] then m else s[|s| - 1]
  }

  /** The maximum is one of the samples and no sample exceeds it. */
  lemma {:induction false} MaxOfIsMax(s: seq<Duration>)
    requires s != []
    ensures MaxOf(s) in s && forall i :: 0 <= i < |s| ==> s[i] <= MaxOf(s)
  {
    if |s| > 1 {
      MaxOfIsMax(s[..|s| - 1]);
      assert forall i :: 0 <= i < |s| - 1 ==> s[..|s| - 1][i] == s[i];
    }
  }

  /** The minimum is one of the samples and no sample is below it. */
  lemma {:induction false} MinOfIsMin(s: seq<Duration>)
    requires s != []
    ensures MinOf(s) in s && forall i :: 0 <= i < |s| ==> MinOf(s) <= s[i]
  {
    if |s| > 1 {
      MinOfIsMin(s[..|s| - 1]);
      assert forall i :: 0 <= i < |s| - 1 ==> s[..|s| - 1][i] == s[i];
    }
  }

  /** The entry invariant: at least one sample, and count, total, max and min are the
      length, sum, largest and smallest of the samples. */
  ghost predicate Consistent(e: TimingData)
  {
    && |e.values| >= 1
    && e.count == |e.values|
    && e.total == Sum(e.values)
    && e.max == MaxOf(e.values)
    && e.min == MinOf(e.values)
  }

  /** The entry `or_insert` creates: no samples, zero totals, and the largest duration
      as the starting minimum. */
  const NEW_ENTRY: TimingData := TimingData(0, 0, 0, MAX_DURATION, [])

  function EntryOrNew(m: map<string, TimingData>, description: string): TimingData
  {
    if description in m then m[description] else NEW_ENTRY
  }

  /** The field updates of `add_timing` on one entry. */
  function Record(e: TimingData, d: Duration): (r: TimingData)
    ensures r.count == e.count + 1 && r.total == e.total + d && r.values == e.values + [d]
    ensures d <= r.max && e.max <= r.max && (r.max == d || r.max == e.max)
    ensures r.min <= d && r.min <= e.min && (r.min == d || r.min == e.min)
  {
    TimingData(e.count + 1, e.total + d,
               if e.max >= d then e.max else d,
               if e.min <= d then e.min else d,
               e.values + [d])
  }

  /** Recording a sample keeps an entry consistent, and a new entry becomes consistent
      with its first sample: max and min start from values that every duration beats. */
  lemma RecordConsistent(e: TimingData, d: Duration)
    requires Consistent(e) || e == NEW_ENTRY
    requires IsDuration(d)
    ensures Consistent(Record(e, d))
    ensures Record(e, d).values == e.values + [d]
  {
    var r, s := Record(e, d), e.values + [d];
    assert r.values == s && s[..|s| - 1] == e.values;
    if e == NEW_ENTRY {
      assert s == [d];
    } else {
      assert Sum(s) == e.total + d;
      assert MaxOf(s) == r.max && MinOf(s) == r.min;
    }
  }


  /** `add_timing` as a map update: only `description`'s entry changes. */
  function AddTimingTo(m: map<string, TimingData>, description: string, d: Duration): map<string, TimingData>
  {
    m[description := Record(EntryOrNew(m, description), d)]
  }

  /** Recording `ds` in order. */
  function RecordAll(e: TimingData, ds: seq<Duration>): TimingData
  {
    if ds == [] then e else Record(RecordAll(e, ds[..|ds| - 1]), ds[|ds| - 1])
  }

  /** Every entry of the statistics is consistent. */
  ghost predicate AllConsistent(m: map<string, TimingData>)
  {
    forall k {:trigger Consistent(m[k])} :: k in m ==> Consistent(m[k])
  }

  /** `add_timing` keeps every entry consistent. */
  lemma AddTimingConsistent(m: map<string, TimingData>, description: string, d: Duration)
    requires AllConsistent(m) && IsDuration(d)
    ensures AllConsistent(AddTimingTo(m, description, d))
  {
    RecordConsistent(EntryOrNew(m, description), d);
  }

  /** Recording several samples appends them in order and counts them. */
  lemma {:induction false} RecordAllValues(e: TimingData, ds: seq<Duration>)
    ensures RecordAll(e, ds).values == e.values + ds
    ensures RecordAll(e, ds).count == e.count + |ds|
  {
    if ds != [] {
      var init := ds[..|ds| - 1];
      RecordAllValues(e, init);
      assert init + [ds[|ds| - 1]] == ds;
    }
  }

  /** Recording several samples keeps an entry consistent, and makes a new entry
      consistent once there is at least one. */
  lemma {:induction false} RecordAllFacts(e: TimingData, ds: seq<Duration>)
    requires Consistent(e) || e == NEW_ENTRY
    requires AllDurations(ds)
    ensures RecordAll(e, ds).values == e.values + ds
    ensures RecordAll(e, ds).count == e.count + |ds|
    ensures ds != [] ==> Consistent(RecordAll(e, ds))
  {
    RecordAllValues(e, ds);
    if ds != [] {
      var init, d := ds[..|ds| - 1], ds[|ds| - 1];
      assert AllDurations(init) by {
        forall i | 0 <= i < |init| ensures IsDuration(init[i]) { assert init[i] == ds[i]; }
      }
      RecordAllFacts(e, init);
      var r := RecordAll(e, init);
      assert Consistent(r) || r == NEW_ENTRY;
      RecordConsistent(r, d);
    }
  }

  /** Feeding `ds` under `description` to the statistics `m`, one `add_timing` each. */
  function Feed(m: map<string, TimingData>, description: string, ds: seq<Duration>): map<string, TimingData>
  {
    if ds == [] then m else m[description := RecordAll(EntryOrNew(m, description), ds)]
  }

  lemma FeedStep(m: map<string, TimingData>, description: string, ds: seq<Duration>, d: Duration)
    ensures AddTimingTo(Feed(m, description, ds), description, d) == Feed(m, description, ds + [d])
  {
    var e := EntryOrNew(m, description);
    var before := RecordAll(e, ds);
    var after := Record(before, d);
    assert (ds + [d])[..|ds|] == ds;
    assert RecordAll(e, ds + [d]) == after;
    assert Feed(m, description, ds + [d]) == m[description := after];
    if ds == [] {
      assert Feed(m, description, ds) == m && before == e;
    } else {
      var f := Feed(m, description, ds);
      assert f == m[description := before];
      assert EntryOrNew(f, description) == before;
      assert f[description := after] == m[description := after];
    }
  }


  /** What draining the pending samples `p` into the statistics `m` yields: every
      description with samples has them recorded in order; the others are unchanged. */
  function Drained(m: map<string, TimingData>, p: map<string, seq<Duration>>): map<string, TimingData>
  {
    map k | k in m.Keys + p.Keys && (k in m || p[k] != []) ::
      if k in p then RecordAll(EntryOrNew(m, k), p[k]) else m[k]
  }

  function Restrict(p: map<string, seq<Duration>>, keys: set<string>): map<string, seq<Duration>>
  {
    map k | k in p && k in keys :: p[k]
  }

  lemma DrainedStep(m: map<string, TimingData>, p: map<string, seq<Duration>>, done: set<string>, description: string)
    requires description in p && description !in done
    ensures Feed(Drained(m, Restrict(p, done)), description, p[description])
         == Drained(m, Restrict(p, done + {description}))
  {
    var q, q' := Restrict(p, done), Restrict(p, done + {description});
    assert q' == q[description := p[description]];
    var before, after := Drained(m, q), Drained(m, q');
    assert EntryOrNew(before, description) == EntryOrNew(m, description);
    var lhs := Feed(before, description, p[description]);
    forall k
      ensures k in lhs <==> k in after
      ensures k in after ==> lhs[k] == after[k]
    {
      if k != description {
        assert k in lhs <==> k in before;
      }
    }
  }

  /** Draining no samples changes nothing. */
  lemma DrainedNone(m: map<string, TimingData>, p: map<string, seq<Duration>>)
    ensures Drained(m, Restrict(p, {})) == m
  {
    assert Restrict(p, {}) == map[];
  }

  /** The per-description statistics after a drain: the samples in order after the old
      ones, and the entry consistent. */
  lemma DrainedEntry(m: map<string, TimingData>, p: map<string, seq<Duration>>, description: string)
    requires AllConsistent(m) && AllPending(p)
    requires description in Drained(m, p)
    ensures Consistent(Drained(m, p)[description])
    ensures description in p ==>
              Drained(m, p)[description].values == EntryOrNew(m, description).values + p[description]
  {
    if description in p {
      RecordAllFacts(EntryOrNew(m, description), p[description]);
    }
  }

  /** Average of an entry: `total / count` in whole nanoseconds. */
  function Average(e: TimingData): nat
    requires e.count >= 1
  {
    e.total / e.count
  }

  /** The samples in ascending order, as the stable sort of `log_timings` leaves them. */
  function SortedSamples(values: seq<Duration>): (r: seq<Duration>)
    ensures |r| == |values| && multiset(r) == multiset(values)
    ensures forall i, j :: 0 <= i <= j < |r| ==> r[i] <= r[j]
  {
    var r := SortByKey(values, NatKey);
    assert |r| == |values| by { assert |multiset(r)| == |multiset(values)|; }
    assert forall i, j :: 0 <= i <= j < |r| ==> r[i] <= r[j] by {
      forall i, j | 0 <= i <= j < |r|
        ensures r[i] <= r[j]
      {
        if i < j {
          assert NatKey(r[i]) <= NatKey(r[j]);
        }
      }
    }
    r
  }

  /** Median: element `len / 2` of the sorted samples, 0 when there are none. */
  function Median(values: seq<Duration>): (r: nat)
    ensures values == [] ==> r == 0
    ensures values != [] ==> r in values
  {
    if values == [] then 0
    else
      var sorted := SortedSamples(values);
      assert sorted[|values| / 2] in multiset(values);
      sorted[|values| / 2]
  }

  function NatKey(n: nat): int
  {
    n
  }

  /** One reported line: the extremes as recorded, the average rounded down, and a
      sample as median. */
  function Summarize(e: TimingData): (r: Summary)
    requires e.count >= 1
    ensures r.max == e.max && r.min == e.min
    ensures r.avg * e.count <= e.total < (r.avg + 1) * e.count
    ensures e.values != [] ==> r.median in e.values
  {
    DivRoundsDown(e.total, e.count);
    Summary(Average(e), e.max, e.min, Median(e.values))
  }

  lemma {:induction false} SumBounds(s: seq<Duration>)
    requires s != []
    ensures |s| * MinOf(s) <= Sum(s) <= |s| * MaxOf(s)
  {
    if |s| > 1 {
      var init, last := s[..|s| - 1], s[|s| - 1];
      var n, lo, hi := |init|, MinOf(s), MaxOf(s);
      SumBounds(init);
      MaxOfIsMax(s);
      MinOfIsMin(s);
      MaxOfIsMax(init);
      MinOfIsMin(init);
      assert Sum(s) == Sum(init) + last;
      assert lo <= MinOf(init) && MaxOf(init) <= hi;
      MulMonotone(n, lo, MinOf(init));
      MulMonotone(n, MaxOf(init), hi);
      assert |s| * lo == n * lo + lo && |s| * hi == n * hi + hi by {
        Distribute(n, lo);
        Distribute(n, hi);
      }
    }
  }

  lemma Distribute(n: nat, m: nat)
    ensures (n + 1) * m == n * m + m
  {
  }

  lemma MulMonotone(n: nat, a: nat, b: nat)
    requires a <= b
    ensures n * a <= n * b
  {
  }

  /** Integer division rounds down: `t / n` is the largest `q` with `q * n <= t`. */
  lemma DivRoundsDown(t: nat, n: nat)
    requires n >= 1
    ensures (t / n) * n <= t < (t / n + 1) * n
  {
    var q, r := t / n, t % n;
    assert t == q * n + r && r < n;
    assert (q + 1) * n == q * n + n;
  }

  lemma DivBetween(t: nat, n: nat, lo: nat, hi: nat)
    requires n >= 1 && n * lo <= t <= n * hi
    ensures lo <= t / n <= hi
  {
    var q := t / n;
    assert t == n * q + t % n;
    if q < lo {
      MulMonotone(n, q + 1, lo);
    }
    if q > hi {
      MulMonotone(n, hi + 1, q);
    }
  }

  /** What `log_timings` reports lies within the entry's extremes: the average and the
      median are both between min and max. */
  lemma SummaryBetween(e: TimingData)
    requires Consistent(e)
    ensures e.min <= Summarize(e).avg <= e.max
    ensures e.min <= Summarize(e).median <= e.max
  {
    SumBounds(e.values);
    DivBetween(e.total, e.count, e.min, e.max);
    var sorted := SortedSamples(e.values);
    assert sorted[|sorted| / 2] in multiset(e.values);
    MaxOfIsMax(e.values);
    MinOfIsMin(e.values);
  }

  /** The median is the middle of the ordered samples: at least half of them are no
      larger and at least half no smaller. */
  lemma MedianIsMiddle(values: seq<Duration>)
    requires values != []
    ensures Median(values) in values
    ensures var sorted := SortedSamples(values);
            && (forall i :: 0 <= i <= |values| / 2 ==> sorted[i] <= Median(values))
            && (forall i :: |values| / 2 <= i < |values| ==> Median(values) <= sorted[i])
  {
    var sorted := SortedSamples(values);
    assert sorted[|values| / 2] in multiset(values);
  }

  /** One line of `log_timings`: the average over `count`, the extremes, and the middle
      element of the sorted samples (0 when there are none). Every element of the report
      lies between the entry's extremes. */
  method SummaryOf(entry: TimingData) returns (summary: Summary)
    requires entry.count >= 1
    ensures summary == Summarize(entry)
    ensures Consistent(entry) ==> entry.min <= summary.avg <= entry.max && entry.min <= summary.median <= entry.max
  {
    var avg := entry.total / entry.count;
    var median: nat := 0;
    if |entry.values| > 0 {
      var sorted := SortedSamples(entry.values);
      median := sorted[|sorted| / 2];
    }
    summary := Summary(avg, entry.max, entry.min, median);
    if Consistent(entry) {
      SummaryBetween(entry);
    }
  }

  /** The `TimingAggregator` resource. */
  class TimingAggregator {
    var data: map<string, TimingData>
    /** `last_log`, as nanoseconds on the same clock as the `now` of `LogTimings`. */
    var lastLog: nat

    ghost predicate Valid()
      reads this
    {
      AllConsistent(data)
    }

    /** `TimingAggregator::default()`. */
    constructor (now: nat)
      ensures Valid() && data == map[] && lastLog == now
    {
      data := map[];
      lastLog := now;
    }

    /** `add_timing`: creates the entry on first use, then updates it in place. */
    method AddTiming(description: string, duration: Duration)
      requires Valid() && IsDuration(duration)
      modifies this
      ensures Valid() && lastLog == old(lastLog)
      ensures data == AddTimingTo(old(data), description, duration)
    {
      AddTimingConsistent(data, description, duration);
      data := data[description := Record(EntryOrNew(data, description), duration)];
    }

    /** `log_timings`: once at least a second has passed since the last log, summarise
        every entry, clear the statistics and restart the interval; otherwise do nothing.
        The returned map is what is printed. */
    method LogTimings(now: nat) returns (report: map<string, Summary>)
      requires Valid() && lastLog <= now
      modifies this
      ensures Valid()
      ensures now - old(lastLog) >= NANOS_PER_SEC ==>
                && data == map[] && lastLog == now
                && report.Keys == old(data).Keys
                && forall k :: k in report ==> old(data)[k].count >= 1 && report[k] == Summarize(old(data)[k])
      ensures now - old(lastLog) < NANOS_PER_SEC ==>
                data == old(data) && lastLog == old(lastLog) && report == map[]
    {
      report := map[];
      if now - lastLog >= NANOS_PER_SEC {
        var remaining := data.Keys;
        while remaining != {}
          invariant data == old(data) && lastLog == old(lastLog) && Valid()
          invariant remaining <= data.Keys
          invariant report.Keys == data.Keys - remaining
          invariant forall k :: k in report ==> data[k].count >= 1 && report[k] == Summarize(data[k])
          decreases remaining
        {
          var description :| description in remaining;
          assert Consistent(data[description]);
          var summary := SummaryOf(data[description]);
          report := report[description := summary];
          remaining := remaining - {description};
        }
        data := map[];
        lastLog := now;
      }
    }
  }

  /** The samples not yet drained: the process-wide `TIMING_DATA` map. */
  class PendingTimings {
    var data: map<string, seq<Duration>>

    constructor ()
      ensures data == map[]
    {
      data := map[];
    }

    /** `entry(description).or_insert_with(Vec::new).push(duration)`. */
    method Push(description: string, duration: Duration)
      modifies this
      ensures AllPending(old(data)) && IsDuration(duration) ==> AllPending(data)
      ensures data == old(data)[description := PendingOf(old(data), description) + [duration]]
    {
      var samples := if description in data then data[description] else [];
      data := data[description := samples + [duration]];
    }
  }

  predicate AllPending(p: map<string, seq<Duration>>)
  {
    forall k :: k in p ==> AllDurations(p[k])
  }

  function PendingOf(p: map<string, seq<Duration>>, description: string): seq<Duration>
  {
    if description in p then p[description] else []
  }

  /** `timeit`: runs `f`, records the time it took (`elapsed`) under `description`, and
      returns `f`'s result unchanged. */
  method Timeit<T>(pending: PendingTimings, description: string, f: () -> T, elapsed: Duration) returns (r: T)
    modifies pending
    ensures r == f()
    ensures pending.data == old(pending.data)[description := PendingOf(old(pending.data), description) + [elapsed]]
  {
    r := f();
    pending.Push(description, elapsed);
  }

  /** `timeitmut`: the same bookkeeping for a closure that may change what it captures. */
  method TimeitMut<T>(pending: PendingTimings, description: string, f: () -> T, elapsed: Duration) returns (r: T)
    modifies pending
    ensures r == f()
    ensures pending.data == old(pending.data)[description := PendingOf(old(pending.data), description) + [elapsed]]
  {
    r := f();
    pending.Push(description, elapsed);
  }

  /** The inner loop of `update_timing_aggregator`: one `add_timing` per sample of
      `description`, in order. */
  method FeedAll(aggregator: TimingAggregator, description: string, durations: seq<Duration>)
    requires aggregator.Valid() && AllDurations(durations)
    modifies aggregator
    ensures aggregator.Valid() && aggregator.lastLog == old(aggregator.lastLog)
    ensures aggregator.data == Feed(old(aggregator.data), description, durations)
  {
    var i := 0;
    while i < |durations|
      invariant 0 <= i <= |durations|
      invariant aggregator.Valid() && aggregator.lastLog == old(aggregator.lastLog)
      invariant aggregator.data == Feed(old(aggregator.data), description, durations[..i])
    {
      FeedStep(old(aggregator.data), description, durations[..i], durations[i]);
      aggregator.AddTiming(description, durations[i]);
      assert durations[..i + 1] == durations[..i] + [durations[i]];
      i := i + 1;
    }
    assert durations[..i] == durations;
  }

  /** `update_timing_aggregator`: drains every pending description and feeds its samples,
      in order, to `add_timing`. Descriptions come out of the map in no fixed order. */
  method UpdateTimingAggregator(aggregator: TimingAggregator, pending: PendingTimings)
    requires aggregator.Valid() && AllPending(pending.data)
    modifies aggregator, pending
    ensures aggregator.Valid() && aggregator.lastLog == old(aggregator.lastLog)
    ensures pending.data == map[]
    ensures aggregator.data == Drained(old(aggregator.data), old(pending.data))
  {
    ghost var m0 := aggregator.data;
    var drained := pending.data;
    pending.data := map[];
    var remaining := drained.Keys;
    ghost var done: set<string> := {};
    DrainedNone(m0, drained);
    while remaining != {}
      invariant remaining <= drained.Keys && done == drained.Keys - remaining
      invariant aggregator.Valid() && aggregator.lastLog == old(aggregator.lastLog)
      invariant pending.data == map[]
      invariant aggregator.data == Drained(m0, Restrict(drained, done))
      decreases remaining
    {
      var description :| description in remaining;
      FeedAll(aggregator, description, drained[description]);
      DrainedStep(m0, drained, done, description);
      done := done + {description};
      remaining := remaining - {description};
    }
    assert Restrict(drained, drained.Keys) == drained;
  }
}
