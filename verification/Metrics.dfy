/**
  Request metrics: a bounded channel, a batching buffer and an hourly table that accumulates on
  conflict. Whatever the interleaving and the batch sizes, the table agrees with counting the
  flushed events one by one.
 */
module Metrics {

  const CHANNEL_CAPACITY: nat := 4096
  const BATCH_SIZE: nat := 200
  const HOUR: int := 60 * 60 * 1_000_000_000
  const MILLISECOND: int := 1_000_000
  const UNMATCHED_ROUTE: string := "unmatched"

  /** One request: method, route, status, duration and time, the last two in nanoseconds. */
  datatype Metric = Metric(verb: string, route: string, status: int, duration: int, at: nat)

  datatype MetricKey = MetricKey(bucketHour: int, verb: string, route: string, statusCode: int)

  datatype Stat = Stat(count: nat, totalMs: nat, maxMs: nat)

  type Table = map<MetricKey, Stat>

  function DurationMs(m: Metric): nat {
    if m.duration < 0 then 0 else m.duration / MILLISECOND
  }

  function KeyOfMetric(m: Metric): MetricKey {
    MetricKey(m.at - m.at % HOUR, m.verb, if m.route == "" then UNMATCHED_ROUTE else m.route,
              if m.status <= 0 then 200 else m.status)
  }

  function Larger(a: nat, b: nat): nat {
    if a < b then b else a
  }

  function Merge(a: Stat, b: Stat): Stat {
    Stat(a.count + b.count, a.totalMs + b.totalMs, Larger(a.maxMs, b.maxMs))
  }

  function StatAt(t: Table, k: MetricKey): Stat {
    if k in t then t[k] else Stat(0, 0, 0)
  }

  /** Event-by-event statistics of one key: how many, their total and their maximum. */
  function Tally(ms: seq<Metric>, k: MetricKey): Stat {
    if ms == [] then Stat(0, 0, 0)
    else
      var rest, last := Tally(ms[..|ms| - 1], k), ms[|ms| - 1];
      if KeyOfMetric(last) == k
      then Stat(rest.count + 1, rest.totalMs + DurationMs(last), Larger(rest.maxMs, DurationMs(last)))
      else rest
  }

  lemma {:induction false} TallySnoc(ms: seq<Metric>, m: Metric, k: MetricKey)
    ensures Tally(ms + [m], k) ==
            if KeyOfMetric(m) == k
            then Merge(Tally(ms, k), Stat(1, DurationMs(m), DurationMs(m)))
            else Tally(ms, k)
  {
    assert (ms + [m])[..|ms|] == ms;
  }

  lemma {:induction false} MergeAssociates(a: Stat, b: Stat, c: Stat)
    ensures Merge(Merge(a, b), c) == Merge(a, Merge(b, c))
    ensures Merge(a, Stat(0, 0, 0)) == a
  {
  }

  /** Tallies do not depend on how events are cut into batches. */
  lemma {:induction false} TallyConcat(a: seq<Metric>, b: seq<Metric>, k: MetricKey)
    ensures Tally(a + b, k) == Merge(Tally(a, k), Tally(b, k))
    decreases |b|, 0
  {
    if b == [] {
      assert a + b == a;
      MergeAssociates(Tally(a, k), Tally(b, k), Tally(b, k));
    } else {
      var b', m := b[..|b| - 1], b[|b| - 1];
      assert a + b == (a + b') + [m] && b == b' + [m];
      TallyMore(a, b', m, k);
    }
  }

  lemma {:induction false} TallyMore(a: seq<Metric>, b: seq<Metric>, m: Metric, k: MetricKey)
    ensures Tally(a + b + [m], k) == Merge(Tally(a, k), Tally(b + [m], k))
    decreases |b|, 1
  {
    TallyConcat(a, b, k);
    TallySnoc(a + b, m, k);
    TallySnoc(b, m, k);
    MergeAssociates(Tally(a, k), Tally(b, k), Stat(1, DurationMs(m), DurationMs(m)));
  }

  // ---- What a key, a duration and a tally are ----

  /**
    The row an event belongs to: the hour that contains it, its method, its route or "unmatched" for
    none, and its status or 200 for none. Its milliseconds are rounded down and never negative.
   */
  lemma {:induction false} EventBelongs(m: Metric)
    ensures var k := KeyOfMetric(m);
            && k.bucketHour % (3600 * 1_000_000_000) == 0
            && k.bucketHour <= m.at < k.bucketHour + 3600 * 1_000_000_000
            && k.verb == m.verb
            && (m.route == "" ==> k.route == "unmatched") && (m.route != "" ==> k.route == m.route)
            && (m.status <= 0 ==> k.statusCode == 200) && (m.status > 0 ==> k.statusCode == m.status)
    ensures m.duration < 0 ==> DurationMs(m) == 0
    ensures m.duration >= 0 ==> DurationMs(m) * 1_000_000 <= m.duration < (DurationMs(m) + 1) * 1_000_000
  {
  }

  /** The milliseconds of the events of one key, in order. */
  function Durations(ms: seq<Metric>, k: MetricKey): seq<nat> {
    if ms == [] then []
    else
      var rest, last := Durations(ms[..|ms| - 1], k), ms[|ms| - 1];
      if KeyOfMetric(last) == k then rest + [DurationMs(last)] else rest
  }

  function Total(ds: seq<nat>): nat {
    if ds == [] then 0 else Total(ds[..|ds| - 1]) + ds[|ds| - 1]
  }

  /** The places of the events of one key. */
  ghost function Indices(ms: seq<Metric>, k: MetricKey): set<int> {
    set i | 0 <= i < |ms| && KeyOfMetric(ms[i]) == k
  }

  /** Every event of the key is among them, and nothing else: as many as there are such events. */
  lemma {:induction false} DurationsAreOfKey(ms: seq<Metric>, k: MetricKey)
    ensures forall i :: 0 <= i < |ms| && KeyOfMetric(ms[i]) == k ==> DurationMs(ms[i]) in Durations(ms, k)
    ensures forall d :: d in Durations(ms, k) ==> exists i :: 0 <= i < |ms| && KeyOfMetric(ms[i]) == k && DurationMs(ms[i]) == d
    ensures |Durations(ms, k)| == |Indices(ms, k)|
    decreases |ms|
  {
    if ms != [] {
      var n := |ms| - 1;
      DurationsAreOfKey(ms[..n], k);
      OneMoreIndex(ms, k);
      forall d | d in Durations(ms, k)
        ensures exists i :: 0 <= i < |ms| && KeyOfMetric(ms[i]) == k && DurationMs(ms[i]) == d
      {
        if d in Durations(ms[..n], k) {
          var i :| 0 <= i < n && KeyOfMetric(ms[..n][i]) == k && DurationMs(ms[..n][i]) == d;
          assert KeyOfMetric(ms[i]) == k && DurationMs(ms[i]) == d;
        } else {
          assert KeyOfMetric(ms[n]) == k && DurationMs(ms[n]) == d;
        }
      }
      forall i | 0 <= i < |ms| && KeyOfMetric(ms[i]) == k
        ensures DurationMs(ms[i]) in Durations(ms, k)
      {
        if i < n {
          assert ms[..n][i] == ms[i];
          assert DurationMs(ms[i]) in Durations(ms[..n], k);
        }
      }
    }
  }

  lemma {:induction false} OneMoreIndex(ms: seq<Metric>, k: MetricKey)
    requires ms != []
    ensures |Indices(ms, k)| == |Indices(ms[..|ms| - 1], k)| + if KeyOfMetric(ms[|ms| - 1]) == k then 1 else 0
  {
    var n := |ms| - 1;
    var all, init := Indices(ms, k), Indices(ms[..n], k);
    forall i
      ensures i in all <==> i in init || (i == n && KeyOfMetric(ms[n]) == k)
    {
      if 0 <= i < n {
        assert ms[..n][i] == ms[i];
      }
    }
    assert all == init + if KeyOfMetric(ms[n]) == k then {n} else {};
  }

  /**
    A tally is the number of the events of its key, the sum of their milliseconds, and their maximum:
    at least each of them, and one of them unless there are none.
   */
  lemma {:induction false} TallyMeans(ms: seq<Metric>, k: MetricKey)
    ensures var t, ds := Tally(ms, k), Durations(ms, k);
            && t.count == |ds| && t.totalMs == Total(ds)
            && (forall i :: 0 <= i < |ds| ==> ds[i] <= t.maxMs)
            && (if ds == [] then t.maxMs == 0 else exists i :: 0 <= i < |ds| && ds[i] == t.maxMs)
    decreases |ms|
  {
    if ms != [] {
      var n := |ms| - 1;
      TallyMeans(ms[..n], k);
      if KeyOfMetric(ms[n]) == k {
        MaximumOfMore(Durations(ms[..n], k), Tally(ms[..n], k).maxMs, DurationMs(ms[n]));
        assert Durations(ms, k)[..|Durations(ms, k)| - 1] == Durations(ms[..n], k);
      }
    }
  }

  ghost predicate IsMaximum(ds: seq<nat>, max: nat) {
    && (forall i :: 0 <= i < |ds| ==> ds[i] <= max)
    && if ds == [] then max == 0 else exists i :: 0 <= i < |ds| && ds[i] == max
  }

  lemma {:induction false} MaximumOfMore(ds: seq<nat>, max: nat, d: nat)
    requires IsMaximum(ds, max)
    ensures IsMaximum(ds + [d], Larger(max, d))
  {
    var more := ds + [d];
    assert more[|ds|] == d;
    if ds != [] && d <= max {
      var i :| 0 <= i < |ds| && ds[i] == max;
      assert more[i] == max;
    }
  }

  /** Totals add up over any cut. */
  lemma {:induction false} TotalAddsUp(a: seq<nat>, b: seq<nat>)
    ensures Total(a + b) == Total(a) + Total(b)
    ensures |b| == 1 ==> Total(b) == b[0]
    decreases |b|
  {
    if b == [] {
      assert a + b == a;
    } else {
      assert (a + b)[..|a + b| - 1] == a + b[..|b| - 1];
      TotalAddsUp(a, b[..|b| - 1]);
    }
  }

  /** Accumulating into a row adds count and total and keeps the greater maximum, whichever row comes first. */
  lemma {:induction false} AccumulateMeans(t: Table, k: MetricKey, s: Stat)
    ensures var r := RecordOne(t, k, s);
            && r.Keys == t.Keys + {k} && (forall k' <- t :: k' != k ==> r[k'] == t[k'])
            && (k !in t ==> r[k] == s)
            && (k in t ==> && r[k].count == t[k].count + s.count && r[k].totalMs == t[k].totalMs + s.totalMs
                           && r[k].maxMs >= t[k].maxMs && r[k].maxMs >= s.maxMs
                           && (r[k].maxMs == t[k].maxMs || r[k].maxMs == s.maxMs))
  {
  }

  /** Aggregate a batch by key. */
  method Aggregate(buffer: seq<Metric>) returns (aggregated: Table)
    ensures forall k :: StatAt(aggregated, k) == Tally(buffer, k)
  {
    aggregated := map[];
    for i := 0 to |buffer|
      invariant forall k :: StatAt(aggregated, k) == Tally(buffer[..i], k)
    {
      var m := buffer[i];
      var key := KeyOfMetric(m);
      var agg := if key in aggregated then aggregated[key] else Stat(0, 0, 0);
      agg := agg.(count := agg.count + 1);
      agg := agg.(totalMs := agg.totalMs + DurationMs(m));
      agg := agg.(maxMs := Larger(agg.maxMs, DurationMs(m)));
      ghost var before := aggregated;
      aggregated := aggregated[key := agg];
      assert buffer[..i + 1] == buffer[..i] + [m];
      forall k
        ensures StatAt(aggregated, k) == Tally(buffer[..i + 1], k)
      {
        TallySnoc(buffer[..i], m, k);
        assert StatAt(before, k) == Tally(buffer[..i], k);
      }
    }
    assert buffer[..|buffer|] == buffer;
  }

  /** Add one row, or accumulate into the row with the same key. */
  function RecordOne(t: Table, k: MetricKey, s: Stat): Table {
    t[k := if k in t then Merge(t[k], s) else s]
  }

  lemma {:induction false} RecordOneAt(t: Table, s: Stat, key: MetricKey, k: MetricKey)
    ensures StatAt(RecordOne(t, key, s), k) == if k == key then Merge(StatAt(t, k), s) else StatAt(t, k)
  {
  }

  /** At `k`, what `table` holds with the rows of `added` outside `left` accumulated into it. */
  function Expected(table: Table, added: Table, left: set<MetricKey>, k: MetricKey): Stat {
    if k in left then StatAt(table, k) else Merge(StatAt(table, k), StatAt(added, k))
  }

  /** The rows of `added` in `left` are still to be recorded, all others have been. */
  ghost predicate Recording(table: Table, added: Table, left: set<MetricKey>, result: Table) {
    forall k :: StatAt(result, k) == Expected(table, added, left, k)
  }

  lemma {:induction false} ExpectedStep(table: Table, added: Table, left: set<MetricKey>, key: MetricKey, k: MetricKey)
    requires key in left && key in added
    ensures Expected(table, added, left - {key}, k) ==
            if k == key then Merge(Expected(table, added, left, key), added[key]) else Expected(table, added, left, k)
  {
  }

  lemma {:induction false} RecordStep(table: Table, added: Table, left: set<MetricKey>, result: Table, key: MetricKey)
    requires key in left && key in added && Recording(table, added, left, result)
    ensures Recording(table, added, left - {key}, RecordOne(result, key, added[key]))
  {
    forall k
      ensures StatAt(RecordOne(result, key, added[key]), k) == Expected(table, added, left - {key}, k)
    {
      RecordOneAt(result, added[key], key, k);
      ExpectedStep(table, added, left, key, k);
    }
  }

  /** `INSERT ... ON CONFLICT DO UPDATE` for every aggregated row, in any order. */
  method RecordAll(table: Table, aggregated: Table) returns (result: Table)
    ensures Recording(table, aggregated, {}, result)
  {
    result := table;
    var left := aggregated.Keys;
    while left != {}
      invariant left <= aggregated.Keys && Recording(table, aggregated, left, result)
      decreases left
    {
      var key :| key in left;
      RecordStep(table, aggregated, left, result, key);
      result := RecordOne(result, key, aggregated[key]);
      left := left - {key};
    }
  }

  /** From the hour `horizon` on, `table` is the event-by-event tally of `ms`. */
  ghost predicate Tallies(table: Table, ms: seq<Metric>, horizon: int) {
    forall k: MetricKey :: k.bucketHour >= horizon ==> StatAt(table, k) == Tally(ms, k)
  }

  /** Adding the tallies of a batch to a table that tallies the earlier events tallies them all. */
  lemma {:induction false} BatchTallies(flushed: seq<Metric>, buffer: seq<Metric>, table: Table, aggregated: Table,
                                        result: Table, horizon: int)
    requires Tallies(table, flushed, horizon)
    requires forall k :: StatAt(aggregated, k) == Tally(buffer, k)
    requires Recording(table, aggregated, {}, result)
    ensures Tallies(result, flushed + buffer, horizon)
  {
    forall k: MetricKey | k.bucketHour >= horizon
      ensures StatAt(result, k) == Tally(flushed + buffer, k)
    {
      TallyConcat(flushed, buffer, k);
      assert StatAt(result, k) == Expected(table, aggregated, {}, k);
      assert StatAt(aggregated, k) == Tally(buffer, k);
    }
  }

  /** Write a batch to a table that tallies everything flushed before. */
  method Write(table: Table, buffer: seq<Metric>, ghost flushed: seq<Metric>, ghost horizon: int) returns (result: Table)
    requires Tallies(table, flushed, horizon)
    ensures Tallies(result, flushed + buffer, horizon)
  {
    var aggregated := Aggregate(buffer);
    result := RecordAll(table, aggregated);
    BatchTallies(flushed, buffer, table, aggregated, result, horizon);
  }

  datatype Event =
    | Offer(m: Metric)      // a request is recorded and offered to the channel
    | Receive               // the loop takes one event from the channel
    | Tick                  // the flush ticker fires
    | Cleanup(before: int)  // rows older than the retention of the table are deleted

  /** The request of an event, if it counts. */
  function OfferedBy(e: Event): seq<Metric> {
    if e.Offer? && !SkipsRoute(e.m.route) then [e.m] else []
  }

  /** The requests of a script that count, in order. */
  function Offered(script: seq<Event>): seq<Metric> {
    if script == [] then [] else Offered(script[..|script| - 1]) + OfferedBy(script[|script| - 1])
  }

  lemma {:induction false} OfferedSoFar(script: seq<Event>, i: nat)
    requires i < |script|
    ensures Offered(script[..i + 1]) == Offered(script[..i]) + OfferedBy(script[i])
    ensures |Offered(script[..i + 1])| <= |Offered(script)|
    decreases |script| - i
  {
    assert script[..i + 1][..i] == script[..i];
    if i + 1 < |script| {
      OfferedSoFar(script, i + 1);
    } else {
      assert script[..i + 1] == script;
    }
  }

  /** `a` is `b` with some events left out. */
  ghost predicate Sub(a: seq<Metric>, b: seq<Metric>)
    decreases |b|
  {
    if b == [] then a == []
    else
      var b', last := b[..|b| - 1], b[|b| - 1];
      Sub(a, b') || (a != [] && a[|a| - 1] == last && Sub(a[..|a| - 1], b'))
  }

  lemma {:induction false} SubSnoc(a: seq<Metric>, b: seq<Metric>, m: Metric)
    requires Sub(a, b)
    ensures Sub(a, b + [m]) && Sub(a + [m], b + [m])
  {
    assert (b + [m])[..|b|] == b && (a + [m])[..|a|] == a;
  }

  lemma {:induction false} SubConcat(a: seq<Metric>, b: seq<Metric>, c: seq<Metric>, d: seq<Metric>)
    requires Sub(a, b) && Sub(c, d)
    ensures Sub(a + c, b + d)
    decreases |d|
  {
    if d == [] {
      assert a + c == a && b + d == b;
    } else {
      var d', last := d[..|d| - 1], d[|d| - 1];
      assert b + d == (b + d') + [last];
      if Sub(c, d') {
        SubConcat(a, b, c, d');
        SubSnoc(a + c, b + d', last);
      } else {
        var c' := c[..|c| - 1];
        SubConcat(a, b, c', d');
        SubSnoc(a + c', b + d', last);
        assert a + c == (a + c') + [last];
      }
    }
  }

  lemma {:induction false} NothingIsSub(b: seq<Metric>)
    ensures Sub([], b)
    decreases |b|
  {
    if b != [] {
      NothingIsSub(b[..|b| - 1]);
    }
  }

  lemma {:induction false} SubOfSuffix(a: seq<Metric>, b: seq<Metric>, n: nat)
    requires n <= |b| && Sub(a, b[n..])
    ensures Sub(a, b)
  {
    NothingIsSub(b[..n]);
    SubConcat([], b[..n], a, b[n..]);
    assert [] + a == a && b[..n] + b[n..] == b;
  }

  /**
    From `was` to `now` only events of `offered` have been added, in their order, and if there was
    room for all, all of them.
   */
  ghost predicate Gained(was: seq<Metric>, now: seq<Metric>, offered: seq<Metric>, room: bool) {
    was <= now && Sub(now[|was|..], offered) && (room ==> now == was + offered)
  }

  lemma {:induction false} GainedBoth(a: seq<Metric>, b: seq<Metric>, c: seq<Metric>, x: seq<Metric>, y: seq<Metric>, room: bool)
    requires Gained(a, b, x, room) && Gained(b, c, y, room)
    ensures Gained(a, c, x + y, room)
  {
    SubConcat(b[|a|..], x, c[|b|..], y);
    assert c[|a|..] == b[|a|..] + c[|b|..];
  }

  lemma {:induction false} GainedUpTo(a: seq<Metric>, b: seq<Metric>, c: seq<Metric>, ms: seq<Metric>, i: nat, j: nat, room: bool)
    requires i <= j <= |ms| && Gained(a, b, ms[..i], room) && Gained(b, c, ms[i..j], room)
    ensures Gained(a, c, ms[..j], room)
  {
    GainedBoth(a, b, c, ms[..i], ms[i..j], room);
    assert ms[..i] + ms[i..j] == ms[..j];
  }

  lemma {:induction false} GainedOne(was: seq<Metric>, now: seq<Metric>, m: Metric, room: bool)
    requires now == was + [m] || (now == was && !room)
    ensures Gained(was, now, [m], room)
  {
    NothingIsSub([m]);
    SubSnoc([], [], m);
    assert now[|was|..] == [] || now[|was|..] == [m];
    assert [] + [m] == [m];
  }

  lemma {:induction false} GainedNone(was: seq<Metric>, room: bool)
    ensures Gained(was, was, [], room)
  {
    assert was[|was|..] == [] && was + [] == was;
  }

  lemma {:induction false} GainedNext(was: seq<Metric>, mid: seq<Metric>, now: seq<Metric>, ms: seq<Metric>, i: nat, room: bool)
    requires i < |ms| && Gained(was, mid, ms[..i], room)
    requires now == mid + [ms[i]] || (now == mid && !room)
    ensures Gained(was, now, ms[..i + 1], room)
  {
    assert ms[i..i + 1] == [ms[i]];
    GainedOne(mid, now, ms[i], room);
    GainedUpTo(was, mid, now, ms, i, i + 1, room);
  }

  class MetricsService {
    var queue: seq<Metric>
    var buffer: seq<Metric>
    var table: Table
    var shutdown: bool
    ghost var accepted: seq<Metric>   // everything the channel took, in order
    ghost var flushed: seq<Metric>    // everything written to the table, in order
    ghost var horizon: int            // rows of earlier hours may have been cleaned up

    /** Accepted events are flushed, buffered or queued, in order, each once; the table tallies the flushed ones. */
    ghost predicate Valid()
      reads this
    {
      && accepted == flushed + buffer + queue
      && |queue| <= CHANNEL_CAPACITY
      && Tallies(table, flushed, horizon)
    }

    constructor ()
      ensures Valid() && accepted == [] && table == map[] && !shutdown && buffer == []
    {
      queue, buffer, table, shutdown := [], [], map[], false;
      accepted, flushed, horizon := [], [], 0;
    }

    /** A non-blocking send: dropped when the channel is full. */
    method Send(m: Metric)
      requires Valid()
      modifies this`queue, this`accepted
      ensures Valid()
      ensures accepted == if |old(queue)| < CHANNEL_CAPACITY then old(accepted) + [m] else old(accepted)
      ensures queue == if |old(queue)| < CHANNEL_CAPACITY then old(queue) + [m] else old(queue)
    {
      if |queue| < CHANNEL_CAPACITY {
        queue := queue + [m];
        accepted := accepted + [m];
        assert accepted == flushed + buffer + queue;
      }
    }

    method SendAll(ms: seq<Metric>)
      requires Valid()
      modifies this`queue, this`accepted
      ensures Valid() && |queue| <= |old(queue)| + |ms|
      ensures Gained(old(accepted), accepted, ms, |old(queue)| + |ms| <= CHANNEL_CAPACITY)
      ensures Gained(old(queue), queue, ms, false)
    {
      ghost var room := |queue| + |ms| <= CHANNEL_CAPACITY;
      GainedNone(accepted, room);
      GainedNone(queue, false);
      for i := 0 to |ms|
        invariant Valid() && |queue| <= |old(queue)| + i
        invariant Gained(old(accepted), accepted, ms[..i], room) && Gained(old(queue), queue, ms[..i], false)
      {
        ghost var a, q := accepted, queue;
        Send(ms[i]);
        GainedNext(old(accepted), a, accepted, ms, i, room);
        GainedNext(old(queue), q, queue, ms, i, false);
      }
      assert ms[..|ms|] == ms;
    }

    method RecordRequestAsync(m: Metric)
      requires Valid()
      modifies this`queue, this`accepted
      ensures Valid()
      ensures SkipsRoute(m.route) <==> "/health/" <= m.route || "/v1/admin/stats" <= m.route
      ensures accepted == if shutdown || SkipsRoute(m.route) || |old(queue)| == CHANNEL_CAPACITY
                          then old(accepted) else old(accepted) + [m]
      ensures queue == if shutdown || SkipsRoute(m.route) || |old(queue)| == CHANNEL_CAPACITY
                       then old(queue) else old(queue) + [m]
    {
      if !SkipsRoute(m.route) && !shutdown {
        Send(m);
      }
    }

    /** Write the buffer to the table and empty it. */
    method Flush()
      requires Valid()
      modifies this`buffer, this`table, this`flushed
      ensures Valid() && buffer == [] && flushed == old(flushed) + old(buffer)
    {
      if buffer != [] {
        table := Write(table, buffer, flushed, horizon);
        flushed := flushed + buffer;
        buffer := [];
      }
    }

    /** Take one event from the channel, flushing a full batch. */
    method ReceiveOne()
      requires Valid() && |buffer| < BATCH_SIZE
      modifies this`queue, this`buffer, this`table, this`flushed
      ensures Valid() && |buffer| < BATCH_SIZE
      ensures queue == if old(queue) == [] then [] else old(queue)[1..]
      ensures old(queue) == [] ==> buffer == old(buffer) && flushed == old(flushed)
      ensures old(queue) != [] && |old(buffer)| + 1 < BATCH_SIZE ==>
                buffer == old(buffer) + [old(queue)[0]] && flushed == old(flushed)
      ensures old(queue) != [] && |old(buffer)| + 1 >= BATCH_SIZE ==>
                buffer == [] && flushed == old(flushed) + old(buffer) + [old(queue)[0]]
    {
      if queue != [] {
        buffer := buffer + [queue[0]];
        queue := queue[1..];
        assert accepted == flushed + buffer + queue;
        if |buffer| >= BATCH_SIZE {
          Flush();
        }
      }
    }

    method RunCleanup(before: int)
      requires Valid()
      modifies this`table, this`horizon
      ensures Valid() && horizon == if old(horizon) < before then before else old(horizon)
      ensures forall k: MetricKey :: k in table <==> k in old(table) && k.bucketHour >= before
      ensures forall k <- table :: k in old(table) && table[k] == old(table)[k]
    {
      ghost var was := table;
      table := map k <- table | k.bucketHour >= before :: table[k];
      horizon := if horizon < before then before else horizon;
      assert forall k: MetricKey :: k.bucketHour >= horizon ==> StatAt(table, k) == StatAt(was, k);
    }

    /** One round of the select loop. */
    method Handle(e: Event, ghost room: bool)
      requires Valid() && !shutdown && |buffer| < BATCH_SIZE
      requires room ==> |queue| + |OfferedBy(e)| <= CHANNEL_CAPACITY
      modifies this
      ensures Valid() && !shutdown && |buffer| < BATCH_SIZE
      ensures |queue| <= |old(queue)| + |OfferedBy(e)|
      ensures Gained(old(accepted), accepted, OfferedBy(e), room)
    {
      GainedNone(accepted, room);
      match e
      case Offer(m) =>
        RecordRequestAsync(m);
        if !SkipsRoute(m.route) {
          GainedOne(old(accepted), accepted, m, room);
        }
      case Receive => ReceiveOne();
      case Tick => Flush();
      case Cleanup(before) => RunCleanup(before);
    }

    /** While the channel is drained, some requests arrive late and one event moves to the buffer. */
    method DrainOne(arriving: seq<Metric>, ghost room: bool)
      requires Valid() && shutdown && queue != [] && (room ==> |queue| + |arriving| <= CHANNEL_CAPACITY)
      modifies this`queue, this`buffer, this`accepted
      ensures Valid() && |queue| < |old(queue)| + |arriving|
      ensures Gained(old(accepted), accepted, arriving, room)
    {
      SendAll(arriving);
      buffer := buffer + [queue[0]];
      queue := queue[1..];
      assert accepted == flushed + buffer + queue;
    }

    /** After the stop signal: empty the channel and flush, while `late` requests may still arrive. */
    method Drain(late: seq<Metric>, ghost room: bool)
      requires Valid() && (room ==> |queue| + |late| <= CHANNEL_CAPACITY)
      modifies this
      ensures Valid() && shutdown && buffer == []
      ensures Gained(old(accepted), accepted, late, room)
      ensures |queue| <= |late| && Sub(queue, late)
    {
      shutdown := true;
      var arrived := 0;
      GainedNone(accepted, room);
      while queue != []
        invariant Valid() && shutdown && arrived <= |late|
        invariant |queue| <= |old(queue)| + arrived
        invariant Gained(old(accepted), accepted, late[..arrived], room)
        decreases 2 * (|late| - arrived) + |queue|
      {
        var now :| arrived <= now <= |late|;
        ghost var a := accepted;
        DrainOne(late[arrived..now], room);
        GainedUpTo(old(accepted), a, accepted, late, arrived, now, room);
        arrived := now;
      }
      Flush();
      ghost var a := accepted;
      ArriveAfter(late[arrived..], room);
      assert late[arrived..|late|] == late[arrived..] && late[..|late|] == late;
      GainedUpTo(old(accepted), a, accepted, late, arrived, |late|, room);
      SubOfSuffix(queue, late, arrived);
    }

    /** Requests that reach the channel when nobody reads it any more. */
    method ArriveAfter(arriving: seq<Metric>, ghost room: bool)
      requires Valid() && queue == [] && (room ==> |arriving| <= CHANNEL_CAPACITY)
      modifies this`queue, this`accepted
      ensures Valid() && |queue| <= |arriving| && Sub(queue, arriving)
      ensures Gained(old(accepted), accepted, arriving, room)
    {
      SendAll(arriving);
      assert queue[|old(queue)|..] == queue;
    }

    /**
      The select loop over any sequence of events, then the drain at shutdown. Requests in `late` had
      passed the shutdown check before it was set and reach the channel while it is drained or after;
      only of these can any be left unwritten. What the channel took is what was offered, in order,
      less what found it full; nothing is dropped while it has room for all.
     */
    method FlushLoop(script: seq<Event>, late: seq<Metric>)
      requires Valid() && !shutdown && buffer == []
      modifies this
      ensures Valid() && shutdown && buffer == []
      ensures accepted == flushed + queue && |queue| <= |late| && Sub(queue, late)
      ensures Tallies(table, flushed, horizon)
      ensures Gained(old(accepted), accepted, Offered(script) + late,
                     |old(queue)| + |Offered(script)| + |late| <= CHANNEL_CAPACITY)
    {
      ghost var room := |queue| + |Offered(script)| + |late| <= CHANNEL_CAPACITY;
      GainedNone(accepted, room);
      for i := 0 to |script|
        invariant Valid() && !shutdown && |buffer| < BATCH_SIZE
        invariant |queue| <= |old(queue)| + |Offered(script[..i])|
        invariant Gained(old(accepted), accepted, Offered(script[..i]), room)
      {
        OfferedSoFar(script, i);
        ghost var a := accepted;
        Handle(script[i], room);
        GainedBoth(old(accepted), a, accepted, Offered(script[..i]), OfferedBy(script[i]), room);
      }
      assert script[..|script|] == script;
      ghost var a := accepted;
      Drain(late, room);
      GainedBoth(old(accepted), a, accepted, Offered(script), late, room);
    }
  }

  predicate SkipsRoute(route: string) {
    "/health/" <= route || "/v1/admin/stats" <= route
  }

  // ---- Totals by request type ----

  datatype RequestType = AuthType | AccountType | SyncType | SnapshotType | SessionsType | StatsType | OtherType

  /** A row of the per-route query. */
  datatype RouteCount = RouteCount(route: string, count: nat)

  function TypeForRoute(route: string): RequestType {
    if "/v1/auth/" <= route then AuthType
    else if "/v1/me" <= route then AccountType
    else if route == "/v1/sync" then SyncType
    else if route == "/v1/snapshot" then SnapshotType
    else if "/v1/sessions" <= route then SessionsType
    else if "/v1/stats" <= route then StatsType
    else OtherType
  }

  /** The prefixes are disjoint, so each type is decided by its own, whatever the order of the tests. */
  lemma {:induction false} TypeIsByPrefix(route: string)
    ensures TypeForRoute(route).AuthType? <==> "/v1/auth/" <= route
    ensures TypeForRoute(route).AccountType? <==> "/v1/me" <= route
    ensures TypeForRoute(route).SyncType? <==> route == "/v1/sync"
    ensures TypeForRoute(route).SnapshotType? <==> route == "/v1/snapshot"
    ensures TypeForRoute(route).SessionsType? <==> "/v1/sessions" <= route
    ensures TypeForRoute(route).StatsType? <==> "/v1/stats" <= route
  {
    if "/v1/" <= route && |route| >= 6 {
      assert "/v1/auth/"[4] == 'a' && "/v1/me"[4] == 'm' && "/v1/sync"[4] == 's';
      assert "/v1/sync"[5] == 'y' && "/v1/snapshot"[5] == 'n' && "/v1/sessions"[5] == 'e' && "/v1/stats"[5] == 't';
    }
  }

  function TypeTotal(rows: seq<RouteCount>, ty: RequestType): nat {
    if rows == [] then 0
    else TypeTotal(rows[..|rows| - 1], ty)
         + if TypeForRoute(rows[|rows| - 1].route) == ty then rows[|rows| - 1].count else 0
  }

  function GrandTotal(rows: seq<RouteCount>): nat {
    if rows == [] then 0 else GrandTotal(rows[..|rows| - 1]) + rows[|rows| - 1].count
  }

  /** Fold the route counts into one count per request type. */
  method CountByType(rows: seq<RouteCount>) returns (counts: map<RequestType, nat>)
    ensures forall ty :: (if ty in counts then counts[ty] else 0) == TypeTotal(rows, ty)
    ensures forall ty :: ty in counts <==> exists i :: 0 <= i < |rows| && TypeForRoute(rows[i].route) == ty
  {
    counts := map[];
    for i := 0 to |rows|
      invariant forall ty :: (if ty in counts then counts[ty] else 0) == TypeTotal(rows[..i], ty)
      invariant forall ty :: ty in counts <==> exists j :: 0 <= j < i && TypeForRoute(rows[j].route) == ty
    {
      var ty := TypeForRoute(rows[i].route);
      assert rows[..i + 1][..i] == rows[..i];
      counts := counts[ty := (if ty in counts then counts[ty] else 0) + rows[i].count];
    }
    assert rows[..|rows|] == rows;
  }

  /** The per-type totals add up to the total of all rows: no request is lost or counted twice. */
  lemma {:induction false} TypesAddUp(rows: seq<RouteCount>)
    ensures TypeTotal(rows, AuthType) + TypeTotal(rows, AccountType) + TypeTotal(rows, SyncType)
            + TypeTotal(rows, SnapshotType) + TypeTotal(rows, SessionsType) + TypeTotal(rows, StatsType)
            + TypeTotal(rows, OtherType) == GrandTotal(rows)
    decreases |rows|
  {
    if rows != [] {
      TypesAddUp(rows[..|rows| - 1]);
    }
  }

  // ---- From the table to the requests ----

  ghost function Sum(f: MetricKey -> nat, ks: set<MetricKey>): nat {
    if ks == {} then 0
    else
      var k :| k in ks;
      f(k) + Sum(f, ks - {k})
  }

  /** The sum does not depend on the order in which rows are visited. */
  lemma {:induction false} SumPick(f: MetricKey -> nat, ks: set<MetricKey>, k: MetricKey)
    requires k in ks
    ensures Sum(f, ks) == f(k) + Sum(f, ks - {k})
    decreases ks
  {
    var first :| first in ks && Sum(f, ks) == f(first) + Sum(f, ks - {first});
    if first != k {
      SumPick(f, ks - {first}, k);
      SumPick(f, ks - {k}, first);
      assert ks - {first} - {k} == ks - {k} - {first};
    }
  }

  lemma {:induction false} SumSame(f: MetricKey -> nat, g: MetricKey -> nat, ks: set<MetricKey>)
    requires forall k :: k in ks ==> f(k) == g(k)
    ensures Sum(f, ks) == Sum(g, ks)
    decreases ks
  {
    if k :| k in ks {
      SumPick(f, ks, k);
      SumPick(g, ks, k);
      SumSame(f, g, ks - {k});
    }
  }

  lemma {:induction false} SumUnion(f: MetricKey -> nat, a: set<MetricKey>, b: set<MetricKey>)
    requires a !! b
    ensures Sum(f, a + b) == Sum(f, a) + Sum(f, b)
    decreases a
  {
    if k :| k in a {
      SumPick(f, a, k);
      SumPick(f, a + b, k);
      SumUnion(f, a - {k}, b);
      assert a + b - {k} == (a - {k}) + b;
    } else {
      assert a + b == b;
    }
  }

  predicate InRange(k: MetricKey, from: int, to: int) {
    from <= k.bucketHour < to
  }

  ghost function KeysIn(t: Table, from: int, to: int): set<MetricKey> {
    set k | k in t && InRange(k, from, to)
  }

  ghost function OfRoute(ks: set<MetricKey>, route: string): set<MetricKey> {
    set k | k in ks && k.route == route
  }

  ghost function CountIn(t: Table): MetricKey -> nat {
    k => StatAt(t, k).count
  }

  ghost function TallyIn(ms: seq<Metric>): MetricKey -> nat {
    k => Tally(ms, k).count
  }

  /** `rows` is the per-route query: one row for each route in range, with the sum of its counts. */
  ghost predicate IsRouteQuery(t: Table, from: int, to: int, rows: seq<RouteCount>) {
    && (forall i, j :: 0 <= i < j < |rows| ==> rows[i].route != rows[j].route)
    && (forall k :: k in KeysIn(t, from, to) ==> exists i :: 0 <= i < |rows| && rows[i].route == k.route)
    && (forall i :: 0 <= i < |rows| ==> rows[i].count == Sum(CountIn(t), OfRoute(KeysIn(t, from, to), rows[i].route)))
  }

  /** Routes partition the rows, so their sums add up. */
  lemma {:induction false} RoutesAddUp(f: MetricKey -> nat, ks: set<MetricKey>, rows: seq<RouteCount>)
    requires forall i, j :: 0 <= i < j < |rows| ==> rows[i].route != rows[j].route
    requires forall k :: k in ks ==> exists i :: 0 <= i < |rows| && rows[i].route == k.route
    requires forall i :: 0 <= i < |rows| ==> rows[i].count == Sum(f, OfRoute(ks, rows[i].route))
    ensures GrandTotal(rows) == Sum(f, ks)
    decreases |rows|
  {
    if rows == [] {
      assert ks == {};
    } else {
      var init, last := rows[..|rows| - 1], rows[|rows| - 1].route;
      var mine := OfRoute(ks, last);
      var others := ks - mine;
      forall i | 0 <= i < |init|
        ensures init[i].count == Sum(f, OfRoute(others, init[i].route))
      {
        assert init[i] == rows[i] && rows[i].route != last;
        assert OfRoute(others, init[i].route) == OfRoute(ks, init[i].route);
      }
      forall k | k in others
        ensures exists i :: 0 <= i < |init| && init[i].route == k.route
      {
        var i :| 0 <= i < |rows| && rows[i].route == k.route;
        assert init[i].route == k.route;
      }
      RoutesAddUp(f, others, init);
      SumUnion(f, mine, others);
      assert mine + others == ks;
    }
  }

  /** How many of the events fall into the range. */
  function EventsIn(ms: seq<Metric>, from: int, to: int): nat {
    if ms == [] then 0
    else EventsIn(ms[..|ms| - 1], from, to) + if InRange(KeyOfMetric(ms[|ms| - 1]), from, to) then 1 else 0
  }

  ghost predicate CoversEvents(ks: set<MetricKey>, ms: seq<Metric>, from: int, to: int) {
    forall i :: 0 <= i < |ms| && InRange(KeyOfMetric(ms[i]), from, to) ==> KeyOfMetric(ms[i]) in ks
  }

  /** Summing the tallies of all keys counts every event once. */
  lemma {:induction false} TalliesCountEvents(ms: seq<Metric>, ks: set<MetricKey>, from: int, to: int)
    requires CoversEvents(ks, ms, from, to)
    requires forall k :: k in ks ==> InRange(k, from, to)
    ensures Sum(TallyIn(ms), ks) == EventsIn(ms, from, to)
    decreases |ms|
  {
    if ms == [] {
      NothingSums(TallyIn(ms), ks);
    } else {
      var init, last := ms[..|ms| - 1], KeyOfMetric(ms[|ms| - 1]);
      assert CoversEvents(ks, init, from, to) by {
        assert forall i :: 0 <= i < |init| ==> init[i] == ms[i];
      }
      TalliesCountEvents(init, ks, from, to);
      if last in ks {
        SumPick(TallyIn(ms), ks, last);
        SumPick(TallyIn(init), ks, last);
        SumSame(TallyIn(ms), TallyIn(init), ks - {last});
      } else {
        SumSame(TallyIn(ms), TallyIn(init), ks);
      }
    }
  }

  lemma {:induction false} NothingSums(f: MetricKey -> nat, ks: set<MetricKey>)
    requires forall k :: k in ks ==> f(k) == 0
    ensures Sum(f, ks) == 0
    decreases ks
  {
    if k :| k in ks {
      SumPick(f, ks, k);
      NothingSums(f, ks - {k});
    }
  }

  lemma {:induction false} EventIsTallied(ms: seq<Metric>, i: nat)
    requires i < |ms|
    ensures Tally(ms, KeyOfMetric(ms[i])).count > 0
    decreases |ms|
  {
    var init := ms[..|ms| - 1];
    if i < |init| {
      EventIsTallied(init, i);
    }
  }

  /**
    The per-type totals that the statistics report adds up to the number of flushed requests whose hour
    lies in the range, as long as the range starts at or after everything cleaned up.
   */
  lemma {:induction false} TypeTotalsCountRequests(table: Table, flushed: seq<Metric>, horizon: int, from: int, to: int,
                                                   rows: seq<RouteCount>)
    requires Tallies(table, flushed, horizon) && horizon <= from
    requires IsRouteQuery(table, from, to, rows)
    ensures TypeTotal(rows, AuthType) + TypeTotal(rows, AccountType) + TypeTotal(rows, SyncType)
            + TypeTotal(rows, SnapshotType) + TypeTotal(rows, SessionsType) + TypeTotal(rows, StatsType)
            + TypeTotal(rows, OtherType) == EventsIn(flushed, from, to)
  {
    var ks := KeysIn(table, from, to);
    TypesAddUp(rows);
    RoutesAddUp(CountIn(table), ks, rows);
    forall i | 0 <= i < |flushed| && InRange(KeyOfMetric(flushed[i]), from, to)
      ensures KeyOfMetric(flushed[i]) in ks
    {
      EventIsTallied(flushed, i);
      assert StatAt(table, KeyOfMetric(flushed[i])) == Tally(flushed, KeyOfMetric(flushed[i]));
    }
    SumSame(CountIn(table), TallyIn(flushed), ks);
    TalliesCountEvents(flushed, ks, from, to);
  }
}
