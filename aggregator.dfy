/**
 * `aggregateData`: fold a raw series into per-day or per-month buckets kept
 * in a dictionary, then turn each bucket into a record with rounded means,
 * the extrema of its loads and an overload flag.
 */
module Aggregator {
  import opened Numeric
  import opened Time
  import opened Generator

  /** How samples are bucketed: by calendar day or by calendar month (UTC). */
  datatype Granularity = Daily | Monthly

  /**
   * The view type `'weekly'` keys by `yyyy-MM-dd`, that is by day; every other
   * view type (other than `'5min'`, which is not aggregated) keys by `yyyy-MM`.
   */
  function GranularityOf(viewType: string): (g: Granularity)
    ensures g == Daily <==> viewType == "weekly"
  {
    if viewType == "weekly" then Daily else Monthly
  }

  /** The bucket key of a timestamp: its day number or its month number. */
  function KeyOf(g: Granularity, t: int): int
  {
    match g
    case Daily => DayOf(t)
    case Monthly => MonthKey(t)
  }

  /** A dictionary entry while the fold runs: load and solar are still sums. */
  datatype Bucket = Bucket(timestamp: int, load: int, solar: int, count: int, maxLoad: int, minLoad: int)

  /** One aggregated record: load and solar are rounded means. */
  datatype Record = Record(timestamp: int, load: int, solar: int, count: int, maxLoad: int, minLoad: int, isOverload: bool)

  /**
   * The accumulator dictionary: its entries, and its keys in insertion order,
   * which is the order `Object.values` lists them in (the keys are date
   * strings, never array indices).
   */
  datatype Tally = Tally(order: seq<int>, buckets: map<int, Bucket>)

  /** What `aggregateData` returns: the input for `'5min'`, records otherwise. */
  datatype View = Fine(samples: seq<Sample>) | Aggregated(records: seq<Record>)

  /** The entry a key's first sample creates. */
  function Open(x: Sample): (b: Bucket)
    ensures b.count == 1 && b.minLoad == b.load == b.maxLoad == x.load
  {
    Bucket(x.timestamp, x.load, x.solar, 1, x.load, x.load)
  }

  /** A later sample with the same key: sums grow, the count grows, the extrema widen. */
  function Absorb(b: Bucket, x: Sample): (b': Bucket)
    ensures b'.timestamp == b.timestamp && b'.count == b.count + 1
    ensures b.minLoad <= b.maxLoad ==> b'.minLoad <= x.load <= b'.maxLoad && b'.minLoad <= b'.maxLoad
  {
    b.(load := b.load + x.load, solar := b.solar + x.solar, count := b.count + 1,
       maxLoad := Max(b.maxLoad, x.load), minLoad := Min(b.minLoad, x.load))
  }

  /** One step of the `reduce`. */
  function Step(acc: Tally, g: Granularity, x: Sample): Tally
  {
    var key := KeyOf(g, x.timestamp);
    if key !in acc.buckets then Tally(acc.order + [key], acc.buckets[key := Open(x)])
    else Tally(acc.order, acc.buckets[key := Absorb(acc.buckets[key], x)])
  }

  /**
   * The dictionary after the `reduce` has consumed `s`, from `{}`: its keys,
   * each listed once, are exactly the keys occurring in `s`.
   */
  function Fold(s: seq<Sample>, g: Granularity): (acc: Tally)
    ensures WellFormed(acc)
    ensures acc.buckets.Keys == KeySet(s, g)
  {
    if s == [] then Tally([], map[]) else Step(Fold(s[..|s| - 1], g), g, s[|s| - 1])
  }

  /**
   * A day key is the day whose 1440 minutes hold the timestamp; a month key
   * encodes the year and the month of the timestamp's date.
   */
  lemma KeyLaws(g: Granularity, t: int)
    ensures g == Daily ==> KeyOf(g, t) * MinutesPerDay <= t < KeyOf(g, t) * MinutesPerDay + MinutesPerDay
    ensures g == Monthly ==>
      KeyOf(g, t) / 12 == CivilFromDays(DayOf(t)).year && KeyOf(g, t) % 12 + 1 == CivilFromDays(DayOf(t)).month
  {
  }

  /**
   * A step of the `reduce` adds the sample's key to the dictionary and, if the
   * key is new, to the end of the insertion order; every other entry is left
   * alone.
   */
  lemma StepFrame(acc: Tally, g: Granularity, x: Sample)
    ensures var acc' := Step(acc, g, x);
      && acc'.buckets.Keys == acc.buckets.Keys + {KeyOf(g, x.timestamp)}
      && acc'.order == (if KeyOf(g, x.timestamp) in acc.buckets then acc.order else acc.order + [KeyOf(g, x.timestamp)])
      && (forall k :: k in acc.buckets && k != KeyOf(g, x.timestamp) ==> acc'.buckets[k] == acc.buckets[k])
  {
  }

  /** Folding one more sample is one more step. */
  lemma FoldSnoc(s: seq<Sample>, g: Granularity, x: Sample)
    ensures Fold(s + [x], g) == Step(Fold(s, g), g, x)
  {
    assert (s + [x])[..|s|] == s;
  }

  /** What every accumulator the fold produces satisfies. */
  ghost predicate WellFormed(acc: Tally)
  {
    && (forall i, j :: 0 <= i < j < |acc.order| ==> acc.order[i] != acc.order[j])
    && (forall k :: k in acc.buckets <==> k in acc.order)
    && (forall k :: k in acc.buckets ==> 1 <= acc.buckets[k].count && acc.buckets[k].minLoad <= acc.buckets[k].maxLoad)
  }

  /** The `.map` over the finished buckets: means rounded, flag from the maximum. */
  function Finish(b: Bucket): (r: Record)
    requires 1 <= b.count
    ensures r.timestamp == b.timestamp && r.count == b.count
    ensures r.maxLoad == b.maxLoad && r.minLoad == b.minLoad
    ensures r.isOverload <==> r.maxLoad > OverloadThreshold
    ensures b.minLoad * b.count <= b.load <= b.maxLoad * b.count ==> r.minLoad <= r.load <= r.maxLoad
  {
    var load := Round(b.load as real / b.count as real);
    MeanWithin(b.load, b.count, b.minLoad, b.maxLoad);
    Record(b.timestamp, load, Round(b.solar as real / b.count as real),
           b.count, b.maxLoad, b.minLoad, b.maxLoad > OverloadThreshold)
  }

  /** A sum between n*lo and n*hi has its rounded mean between lo and hi. */
  lemma MeanWithin(sum: int, n: int, lo: int, hi: int)
    requires 1 <= n
    ensures lo * n <= sum <= hi * n ==> lo <= Round(sum as real / n as real) <= hi
  {
    if lo * n <= sum <= hi * n {
      var q := sum as real / n as real;
      assert q * n as real == sum as real;
      assert lo as real <= q <= hi as real;
      RoundWithin(q, lo, hi);
    }
  }

  /** `Object.values(aggregated).map(...)`: one record per key, in insertion order. */
  function Records(acc: Tally): (r: seq<Record>)
    requires WellFormed(acc)
    ensures |r| == |acc.order|
    ensures forall i :: 0 <= i < |r| ==> r[i] == Finish(acc.buckets[acc.order[i]])
  {
    seq(|acc.order|, i requires 0 <= i < |acc.order| =>
      assert acc.order[i] in acc.order;
      Finish(acc.buckets[acc.order[i]]))
  }

  /* ---- What a bucket should hold, defined on the samples themselves ---- */

  /** The keys that occur in `s`. */
  ghost function KeySet(s: seq<Sample>, g: Granularity): (keys: set<int>)
    ensures forall j :: 0 <= j < |s| ==> KeyOf(g, s[j].timestamp) in keys
  {
    if s == [] then {} else KeySet(s[..|s| - 1], g) + {KeyOf(g, s[|s| - 1].timestamp)}
  }

  /** The samples of `s` whose key is `k`, in input order. */
  ghost function Filter(s: seq<Sample>, g: Granularity, k: int): (t: seq<Sample>)
    ensures forall y :: y in t ==> y in s && KeyOf(g, y.timestamp) == k
    ensures forall j :: 0 <= j < |s| && KeyOf(g, s[j].timestamp) == k ==> s[j] in t
    ensures |t| <= |s|
  {
    if s == [] then []
    else
      var init := s[..|s| - 1];
      var x := s[|s| - 1];
      assert forall j :: 0 <= j < |init| ==> init[j] == s[j];
      Filter(init, g, k) + (if KeyOf(g, x.timestamp) == k then [x] else [])
  }

  /** The position of the first sample of `s` with key `k`. */
  ghost function FirstIndex(s: seq<Sample>, g: Granularity, k: int): (n: nat)
    requires k in KeySet(s, g)
    ensures n < |s| && KeyOf(g, s[n].timestamp) == k
    ensures forall j :: 0 <= j < n ==> KeyOf(g, s[j].timestamp) != k
  {
    var init := s[..|s| - 1];
    if k in KeySet(init, g) then FirstIndex(init, g, k) else |s| - 1
  }

  function SumLoad(t: seq<Sample>): int
  {
    if t == [] then 0 else SumLoad(t[..|t| - 1]) + t[|t| - 1].load
  }

  function SumSolar(t: seq<Sample>): int
  {
    if t == [] then 0 else SumSolar(t[..|t| - 1]) + t[|t| - 1].solar
  }

  /** The largest load of a non-empty sequence of samples. */
  function MaxLoad(t: seq<Sample>): (m: int)
    requires t != []
    ensures forall j :: 0 <= j < |t| ==> t[j].load <= m
    ensures exists j :: 0 <= j < |t| && t[j].load == m
  {
    if |t| == 1 then t[0].load
    else
      var init := t[..|t| - 1];
      var m := MaxLoad(init);
      assert forall j :: 0 <= j < |init| ==> init[j] == t[j];
      Max(m, t[|t| - 1].load)
  }

  /** The smallest load of a non-empty sequence of samples. */
  function MinLoad(t: seq<Sample>): (m: int)
    requires t != []
    ensures forall j :: 0 <= j < |t| ==> m <= t[j].load
    ensures exists j :: 0 <= j < |t| && t[j].load == m
  {
    if |t| == 1 then t[0].load
    else
      var init := t[..|t| - 1];
      var m := MinLoad(init);
      assert forall j :: 0 <= j < |init| ==> init[j] == t[j];
      Min(m, t[|t| - 1].load)
  }

  /** The bucket a non-empty group of samples should produce. */
  ghost function Summary(t: seq<Sample>): Bucket
    requires t != []
  {
    Bucket(t[0].timestamp, SumLoad(t), SumSolar(t), |t|, MaxLoad(t), MinLoad(t))
  }

  /** The sum of the counts of a sequence of records. */
  function SumCounts(r: seq<Record>): int
  {
    if r == [] then 0 else SumCounts(r[..|r| - 1]) + r[|r| - 1].count
  }

  /* ---- The fold computes, for every key, the summary of that key's samples ---- */

  /** A key that does not occur has no samples. */
  lemma FilterAbsent(s: seq<Sample>, g: Granularity, k: int)
    requires k !in KeySet(s, g)
    ensures Filter(s, g, k) == []
  {
  }

  /** A single sample opens its bucket. */
  lemma SummaryOne(x: Sample)
    ensures Summary([x]) == Open(x)
  {
    assert [x][..0] == [];
    assert SumLoad([x]) == x.load;
    assert SumSolar([x]) == x.solar;
  }

  /** A further sample is absorbed into the summary of those before it. */
  lemma SummarySnoc(f: seq<Sample>, x: Sample)
    requires f != []
    ensures Summary(f + [x]) == Absorb(Summary(f), x)
  {
    assert (f + [x])[..|f|] == f;
  }

  /** Each entry of the folded dictionary is the summary of the samples with its key. */
  lemma {:induction false} FoldBuckets(s: seq<Sample>, g: Granularity)
    ensures forall k :: k in Fold(s, g).buckets ==>
      Filter(s, g, k) != [] && Fold(s, g).buckets[k] == Summary(Filter(s, g, k))
  {
    if s != [] {
      var init, x := s[..|s| - 1], s[|s| - 1];
      var k0 := KeyOf(g, x.timestamp);
      FoldBuckets(init, g);
      var acc := Fold(init, g);
      var acc' := Fold(s, g);
      assert acc' == Step(acc, g, x);
      forall k | k in acc'.buckets
        ensures Filter(s, g, k) != [] && acc'.buckets[k] == Summary(Filter(s, g, k))
      {
        var f := Filter(init, g, k);
        if k != k0 {
          assert Filter(s, g, k) == f;
          assert acc'.buckets[k] == acc.buckets[k];
        } else if k0 !in acc.buckets {
          FilterAbsent(init, g, k0);
          assert Filter(s, g, k) == [x];
          SummaryOne(x);
        } else {
          assert Filter(s, g, k) == f + [x];
          SummarySnoc(f, x);
        }
      }
    }
  }

  /** Appending a sample keeps the first occurrence of every key already seen. */
  lemma FirstIndexSnoc(s: seq<Sample>, g: Granularity, k: int)
    requires s != [] && k in KeySet(s[..|s| - 1], g)
    ensures k in KeySet(s, g) && FirstIndex(s, g, k) == FirstIndex(s[..|s| - 1], g, k)
  {
  }

  /** The first sample of a new key is the last one. */
  lemma FirstIndexNew(s: seq<Sample>, g: Granularity)
    requires s != [] && KeyOf(g, s[|s| - 1].timestamp) !in KeySet(s[..|s| - 1], g)
    ensures FirstIndex(s, g, KeyOf(g, s[|s| - 1].timestamp)) == |s| - 1
  {
  }

  /** Keys `a` and `b` both occur in `s`, and `a` occurs first. */
  ghost predicate SeenBefore(s: seq<Sample>, g: Granularity, a: int, b: int)
  {
    a in KeySet(s, g) && b in KeySet(s, g) && FirstIndex(s, g, a) < FirstIndex(s, g, b)
  }

  /** `order` lists keys of `s` by increasing position of their first sample. */
  ghost predicate FirstSeenOrder(s: seq<Sample>, g: Granularity, order: seq<int>)
  {
    forall i, j :: 0 <= i < j < |order| ==> SeenBefore(s, g, order[i], order[j])
  }

  /** A sample with a known key keeps the order of first occurrences. */
  lemma FirstSeenKnown(s: seq<Sample>, g: Granularity, order: seq<int>)
    requires s != [] && FirstSeenOrder(s[..|s| - 1], g, order)
    ensures FirstSeenOrder(s, g, order)
  {
    var init := s[..|s| - 1];
    forall i, j | 0 <= i < j < |order|
      ensures SeenBefore(s, g, order[i], order[j])
    {
      assert SeenBefore(init, g, order[i], order[j]);
      FirstIndexSnoc(s, g, order[i]);
      FirstIndexSnoc(s, g, order[j]);
    }
  }

  /** A sample with a new key extends the order of first occurrences by that key. */
  lemma FirstSeenNew(s: seq<Sample>, g: Granularity, order: seq<int>)
    requires s != [] && FirstSeenOrder(s[..|s| - 1], g, order)
    requires forall k :: k in order ==> k in KeySet(s[..|s| - 1], g)
    requires KeyOf(g, s[|s| - 1].timestamp) !in KeySet(s[..|s| - 1], g)
    ensures FirstSeenOrder(s, g, order + [KeyOf(g, s[|s| - 1].timestamp)])
  {
    var init := s[..|s| - 1];
    var k0 := KeyOf(g, s[|s| - 1].timestamp);
    var order' := order + [k0];
    FirstIndexNew(s, g);
    forall i, j | 0 <= i < j < |order'|
      ensures SeenBefore(s, g, order'[i], order'[j])
    {
      assert order'[i] == order[i] && order[i] in order;
      FirstIndexSnoc(s, g, order[i]);
      if j < |order| {
        assert order'[j] == order[j] && order[j] in order;
        assert SeenBefore(init, g, order[i], order[j]);
        FirstIndexSnoc(s, g, order[j]);
      }
    }
  }

  /** The keys are listed in the order their first samples occur. */
  lemma {:induction false} FoldOrder(s: seq<Sample>, g: Granularity)
    ensures FirstSeenOrder(s, g, Fold(s, g).order)
  {
    if s != [] {
      var init, x := s[..|s| - 1], s[|s| - 1];
      var k0 := KeyOf(g, x.timestamp);
      FoldOrder(init, g);
      var acc := Fold(init, g);
      assert Fold(s, g) == Step(acc, g, x);
      if k0 in acc.buckets {
        FirstSeenKnown(s, g, acc.order);
      } else {
        FirstSeenNew(s, g, acc.order);
      }
    }
  }

  /** Replacing one record changes the total count by the difference of the two counts. */
  lemma {:induction false} SumCountsUpdate(r: seq<Record>, p: int, y: Record)
    requires 0 <= p < |r|
    ensures SumCounts(r[p := y]) == SumCounts(r) - r[p].count + y.count
  {
    var n := |r|;
    if p == n - 1 {
      assert r[p := y][..n - 1] == r[..n - 1];
    } else {
      assert r[p := y][..n - 1] == r[..n - 1][p := y];
      SumCountsUpdate(r[..n - 1], p, y);
    }
  }

  /** A sample with a new key appends one record and leaves the others as they were. */
  lemma RecordsSnocNew(s: seq<Sample>, g: Granularity)
    requires s != [] && KeyOf(g, s[|s| - 1].timestamp) !in Fold(s[..|s| - 1], g).buckets
    ensures Records(Fold(s, g)) == Records(Fold(s[..|s| - 1], g)) + [Finish(Open(s[|s| - 1]))]
  {
    var acc := Fold(s[..|s| - 1], g);
    var x := s[|s| - 1];
    var k0 := KeyOf(g, x.timestamp);
    var acc' := Fold(s, g);
    assert acc' == Tally(acc.order + [k0], acc.buckets[k0 := Open(x)]);
    var recs, recs' := Records(acc), Records(acc');
    assert |recs'| == |recs| + 1;
    forall i | 0 <= i < |recs|
      ensures recs'[i] == recs[i]
    {
      var k := acc.order[i];
      assert k in acc.order;
      assert acc'.order[i] == k && acc'.buckets[k] == acc.buckets[k];
    }
    assert recs'[|recs|] == Finish(Open(x));
    assert recs' == recs + [Finish(Open(x))];
  }

  /** A sample with a known key changes only the record of that key. */
  lemma RecordsSnocOld(s: seq<Sample>, g: Granularity, p: int)
    requires s != []
    requires 0 <= p < |Fold(s[..|s| - 1], g).order|
    requires Fold(s[..|s| - 1], g).order[p] == KeyOf(g, s[|s| - 1].timestamp)
    ensures var acc := Fold(s[..|s| - 1], g);
      Records(Fold(s, g)) == Records(acc)[p := Finish(Absorb(acc.buckets[acc.order[p]], s[|s| - 1]))]
  {
    var acc := Fold(s[..|s| - 1], g);
    var k0 := KeyOf(g, s[|s| - 1].timestamp);
    assert k0 in acc.order;
    assert Fold(s, g) == Step(acc, g, s[|s| - 1]);
    forall i | 0 <= i < |acc.order| && i != p
      ensures Fold(s, g).buckets[acc.order[i]] == acc.buckets[acc.order[i]]
    {
      assert acc.order[i] != k0;
    }
  }

  /** Partition: the counts of the records add up to the number of samples. */
  lemma {:induction false} FoldPartition(s: seq<Sample>, g: Granularity)
    ensures SumCounts(Records(Fold(s, g))) == |s|
  {
    if s != [] {
      var init, x := s[..|s| - 1], s[|s| - 1];
      var k0 := KeyOf(g, x.timestamp);
      FoldPartition(init, g);
      var acc := Fold(init, g);
      var recs := Records(acc);
      if k0 !in acc.buckets {
        RecordsSnocNew(s, g);
        assert (recs + [Finish(Open(x))])[..|recs|] == recs;
      } else {
        assert k0 in acc.order;
        var p :| 0 <= p < |acc.order| && acc.order[p] == k0;
        RecordsSnocOld(s, g, p);
        SumCountsUpdate(recs, p, Finish(Absorb(acc.buckets[k0], x)));
      }
    }
  }

  /** The first sample of a key's group is the key's first sample in the input. */
  lemma {:induction false} FilterFirst(s: seq<Sample>, g: Granularity, k: int)
    requires k in KeySet(s, g)
    ensures Filter(s, g, k) != [] && Filter(s, g, k)[0] == s[FirstIndex(s, g, k)]
  {
    var init := s[..|s| - 1];
    if k in KeySet(init, g) {
      FilterFirst(init, g, k);
      assert s[FirstIndex(init, g, k)] == init[FirstIndex(init, g, k)];
    } else {
      FilterAbsent(init, g, k);
    }
  }

  /** A sum of loads that each lie in [lo, hi] lies in [lo * n, hi * n]. */
  lemma {:induction false} SumLoadWithin(t: seq<Sample>, lo: int, hi: int)
    requires forall j :: 0 <= j < |t| ==> lo <= t[j].load <= hi
    ensures lo * |t| <= SumLoad(t) <= hi * |t|
  {
    if t != [] {
      var init := t[..|t| - 1];
      assert forall j :: 0 <= j < |init| ==> init[j] == t[j];
      SumLoadWithin(init, lo, hi);
      assert lo * |t| == lo * |init| + lo;
      assert hi * |t| == hi * |init| + hi;
    }
  }

  /* ---- The laws of the aggregated records ---- */

  /**
   * Partition: the records' counts add up to the number of samples, no record
   * is empty, and there are records exactly when there are samples.
   */
  lemma AggregatePartition(data: seq<Sample>, g: Granularity)
    ensures var r := Records(Fold(data, g));
      && SumCounts(r) == |data|
      && (forall i :: 0 <= i < |r| ==> 1 <= r[i].count)
      && (r == [] <==> data == [])
  {
    var acc := Fold(data, g);
    var r := Records(acc);
    FoldPartition(data, g);
    forall i | 0 <= i < |r|
      ensures 1 <= r[i].count
    {
      assert acc.order[i] in acc.order;
    }
    if data != [] {
      var k := KeyOf(g, data[0].timestamp);
      assert k in acc.buckets;
      assert k in acc.order;
    }
  }

  /**
   * One record per distinct key, in the order the keys are first seen, each
   * stamped with the timestamp of its key's first sample.
   */
  lemma AggregateFirstSeen(data: seq<Sample>, g: Granularity)
    ensures var acc := Fold(data, g);
      var r := Records(acc);
      && |r| == |acc.order|
      && (forall k :: k in acc.order <==> k in KeySet(data, g))
      && (forall i, j :: 0 <= i < j < |r| ==> acc.order[i] != acc.order[j])
      && FirstSeenOrder(data, g, acc.order)
      && (forall i :: 0 <= i < |r| ==>
            acc.order[i] in KeySet(data, g) && r[i].timestamp == data[FirstIndex(data, g, acc.order[i])].timestamp)
  {
    var acc := Fold(data, g);
    var r := Records(acc);
    FoldOrder(data, g);
    FoldBuckets(data, g);
    forall i | 0 <= i < |r|
      ensures acc.order[i] in KeySet(data, g) && r[i].timestamp == data[FirstIndex(data, g, acc.order[i])].timestamp
    {
      var k := acc.order[i];
      assert k in acc.order;
      FilterFirst(data, g, k);
    }
  }

  /** The record of a non-empty group: its count, its extrema over the group, its mean between them. */
  lemma GroupRecord(f: seq<Sample>)
    requires f != []
    ensures var r := Finish(Summary(f));
      && r.count == |f|
      && r.minLoad <= r.load <= r.maxLoad
      && (forall y :: y in f ==> r.minLoad <= y.load <= r.maxLoad)
      && (exists y :: y in f && y.load == r.maxLoad)
      && (exists y :: y in f && y.load == r.minLoad)
  {
    SumLoadWithin(f, MinLoad(f), MaxLoad(f));
    var jmax :| 0 <= jmax < |f| && f[jmax].load == MaxLoad(f);
    assert f[jmax] in f;
    var jmin :| 0 <= jmin < |f| && f[jmin].load == MinLoad(f);
    assert f[jmin] in f;
  }

  /**
   * A record's extrema bound the loads of all samples with its key and are
   * attained by some of them, its mean load lies between them, its count is
   * the number of those samples, and its flag says whether the maximum
   * exceeds the threshold.
   */
  lemma AggregateExtrema(data: seq<Sample>, g: Granularity, i: int)
    requires 0 <= i < |Fold(data, g).order|
    ensures var k := Fold(data, g).order[i];
      var r := Records(Fold(data, g))[i];
      && r.count == |Filter(data, g, k)|
      && r.minLoad <= r.load <= r.maxLoad
      && r.isOverload == (r.maxLoad > OverloadThreshold)
      && (forall j :: 0 <= j < |data| && KeyOf(g, data[j].timestamp) == k ==> r.minLoad <= data[j].load <= r.maxLoad)
      && (exists j :: 0 <= j < |data| && KeyOf(g, data[j].timestamp) == k && data[j].load == r.maxLoad)
      && (exists j :: 0 <= j < |data| && KeyOf(g, data[j].timestamp) == k && data[j].load == r.minLoad)
  {
    var acc := Fold(data, g);
    var k := acc.order[i];
    assert k in acc.order;
    FoldBuckets(data, g);
    var f := Filter(data, g, k);
    var r := Records(acc)[i];
    assert r == Finish(Summary(f));
    GroupRecord(f);
    var ymax :| ymax in f && ymax.load == r.maxLoad;
    var dmax :| 0 <= dmax < |data| && data[dmax] == ymax;
    var ymin :| ymin in f && ymin.load == r.minLoad;
    var dmin :| 0 <= dmin < |data| && data[dmin] == ymin;
  }

  /** On a series in strictly increasing time order (as generated), the records are too. */
  lemma AggregateChronological(data: seq<Sample>, g: Granularity)
    requires forall i, j :: 0 <= i < j < |data| ==> data[i].timestamp < data[j].timestamp
    ensures var r := Records(Fold(data, g));
      forall i, j :: 0 <= i < j < |r| ==> r[i].timestamp < r[j].timestamp
  {
    var acc := Fold(data, g);
    var r := Records(acc);
    AggregateFirstSeen(data, g);
    forall i, j | 0 <= i < j < |r|
      ensures r[i].timestamp < r[j].timestamp
    {
      assert SeenBefore(data, g, acc.order[i], acc.order[j]);
    }
  }

  /** Every record's mean load lies between its extrema. */
  lemma AggregateMeans(data: seq<Sample>, g: Granularity)
    ensures var r := Records(Fold(data, g));
      forall i :: 0 <= i < |r| ==> r[i].minLoad <= r[i].load <= r[i].maxLoad
  {
    forall i | 0 <= i < |Records(Fold(data, g))|
      ensures Records(Fold(data, g))[i].minLoad <= Records(Fold(data, g))[i].load <= Records(Fold(data, g))[i].maxLoad
    {
      AggregateExtrema(data, g, i);
    }
  }

  /* ---- A worked scenario: two days of generated samples, bucketed by day ---- */

  /** Appending samples that all have key `k` adds every one of them to the group of `k`. */
  lemma {:induction false} FilterAppendAll(a: seq<Sample>, b: seq<Sample>, g: Granularity, k: int)
    requires forall j :: 0 <= j < |b| ==> KeyOf(g, b[j].timestamp) == k
    ensures |Filter(a + b, g, k)| == |Filter(a, g, k)| + |b|
  {
    if b == [] {
      assert a + b == a;
    } else {
      var init := b[..|b| - 1];
      FilterAppendAll(a, init, g, k);
      assert (a + b)[..|a + b| - 1] == a + init;
    }
  }

  /** Appending samples none of which has key `k` leaves the group of `k` as it was. */
  lemma {:induction false} FilterAppendNone(a: seq<Sample>, b: seq<Sample>, g: Granularity, k: int)
    requires forall j :: 0 <= j < |b| ==> KeyOf(g, b[j].timestamp) != k
    ensures Filter(a + b, g, k) == Filter(a, g, k)
  {
    if b == [] {
      assert a + b == a;
    } else {
      var init := b[..|b| - 1];
      FilterAppendNone(a, init, g, k);
      assert (a + b)[..|a + b| - 1] == a + init;
    }
  }

  /** Records that all have count `c` have counts summing to `c` times their number. */
  lemma {:induction false} SumCountsUniform(r: seq<Record>, c: int)
    requires forall i :: 0 <= i < |r| ==> r[i].count == c
    ensures SumCounts(r) == c * |r|
  {
    if r != [] {
      SumCountsUniform(r[..|r| - 1], c);
    }
  }

  /** The samples of two whole UTC days from day `d`: the first 288 fall on day `d`, the next 288 on day `d + 1`. */
  lemma TwoDaysKeys(d: int, seed: int, sin: real -> real)
    ensures var data := Generate(d * MinutesPerDay, d * MinutesPerDay + 2 * MinutesPerDay, seed, sin);
      && |data| == 576
      && (forall j :: 0 <= j < 288 ==> KeyOf(Daily, data[j].timestamp) == d)
      && (forall j :: 288 <= j < 576 ==> KeyOf(Daily, data[j].timestamp) == d + 1)
  {
    var data := Generate(d * MinutesPerDay, d * MinutesPerDay + 2 * MinutesPerDay, seed, sin);
    forall j | 0 <= j < 288
      ensures KeyOf(Daily, data[j].timestamp) == d
    {
    }
    forall j | 288 <= j < 576
      ensures KeyOf(Daily, data[j].timestamp) == d + 1
    {
    }
  }

  /** What the two days look like to the daily view: the keys of the first and the second half of the samples. */
  ghost predicate TwoDays(data: seq<Sample>, d: int)
  {
    && |data| == 576
    && (forall j :: 0 <= j < 288 ==> KeyOf(Daily, data[j].timestamp) == d)
    && (forall j :: 288 <= j < 576 ==> KeyOf(Daily, data[j].timestamp) == d + 1)
  }

  /** Each of the two days groups 288 samples. */
  lemma TwoDaysGroups(data: seq<Sample>, d: int)
    requires TwoDays(data, d)
    ensures |Filter(data, Daily, d)| == 288 && |Filter(data, Daily, d + 1)| == 288
  {
    var first, second := data[..288], data[288..];
    assert data == first + second;
    assert [] + first == first;
    assert forall j :: 0 <= j < |first| ==> KeyOf(Daily, first[j].timestamp) == d;
    assert forall j :: 0 <= j < |second| ==> KeyOf(Daily, second[j].timestamp) == d + 1 by {
      forall j | 0 <= j < |second|
        ensures KeyOf(Daily, second[j].timestamp) == d + 1
      {
        assert second[j] == data[288 + j];
      }
    }
    FilterAppendAll([], first, Daily, d);
    FilterAppendNone(first, second, Daily, d);
    FilterAppendNone([], first, Daily, d + 1);
    FilterAppendAll(first, second, Daily, d + 1);
  }

  /** The two days are the only keys, and each day's first sample opens it. */
  lemma TwoDaysFirst(data: seq<Sample>, d: int)
    requires TwoDays(data, d)
    ensures forall k :: k in KeySet(data, Daily) ==> k == d || k == d + 1
    ensures d in KeySet(data, Daily) && FirstIndex(data, Daily, d) == 0
    ensures d + 1 in KeySet(data, Daily) && FirstIndex(data, Daily, d + 1) == 288
  {
    forall k | k in KeySet(data, Daily)
      ensures k == d || k == d + 1
    {
      var n := FirstIndex(data, Daily, k);
    }
    assert KeyOf(Daily, data[0].timestamp) == d;
    assert KeyOf(Daily, data[288].timestamp) == d + 1;
  }

  /**
   * Time-ordered samples of two days, 288 per day, give two daily records of
   * 288 samples each, the first day first, each stamped with its first sample.
   */
  lemma TwoDaysRecords(data: seq<Sample>, d: int)
    requires TwoDays(data, d)
    requires forall i, j :: 0 <= i < j < |data| ==> data[i].timestamp < data[j].timestamp
    ensures var r := Records(Fold(data, Daily));
      && |r| == 2
      && r[0].count == 288 && r[1].count == 288
      && r[0].timestamp == data[0].timestamp && r[1].timestamp == data[288].timestamp
  {
    TwoDaysGroups(data, d);
    TwoDaysFirst(data, d);
    var acc := Fold(data, Daily);
    var r := Records(acc);
    AggregateFirstSeen(data, Daily);
    forall i | 0 <= i < |r|
      ensures (acc.order[i] == d || acc.order[i] == d + 1) && r[i].count == 288
    {
      AggregateExtrema(data, Daily, i);
    }
    AggregatePartition(data, Daily);
    SumCountsUniform(r, 288);
    assert |r| == 2;
    AggregateChronological(data, Daily);
    assert acc.order[0] == d;
  }

  /**
   * Two whole UTC days of generated samples (576 of them) in the daily view
   * give exactly two records, one per day in day order, each of 288 samples
   * and stamped with its day's midnight.
   */
  lemma TwoDaysDaily(d: int, seed: int, sin: real -> real)
    ensures var data := Generate(d * MinutesPerDay, d * MinutesPerDay + 2 * MinutesPerDay, seed, sin);
      var r := Records(Fold(data, Daily));
      && |data| == 576 && |r| == 2
      && r[0].count == 288 && r[1].count == 288
      && r[0].timestamp == d * MinutesPerDay && r[1].timestamp == d * MinutesPerDay + MinutesPerDay
  {
    var start := d * MinutesPerDay;
    var data := Generate(start, start + 2 * MinutesPerDay, seed, sin);
    TwoDaysKeys(d, seed, sin);
    GenerateCadence(start, start + 2 * MinutesPerDay, seed, sin);
    TwoDaysRecords(data, d);
  }

  /**
   * The `reduce` of `aggregateData`: one pass over the samples, creating a
   * dictionary entry for each new key and updating the entry of a known key
   * in place.
   */
  method Reduce(data: seq<Sample>, g: Granularity) returns (order: seq<int>, buckets: map<int, Bucket>)
    ensures Tally(order, buckets) == Fold(data, g)
  {
    order, buckets := [], map[];
    for i := 0 to |data|
      invariant Tally(order, buckets) == Fold(data[..i], g)
    {
      var entry := data[i];
      var key := KeyOf(g, entry.timestamp);
      assert data[..i + 1] == data[..i] + [entry];
      FoldSnoc(data[..i], g, entry);
      if key !in buckets {
        buckets := buckets[key := Open(entry)];
        order := order + [key];
      } else {
        buckets := buckets[key := Absorb(buckets[key], entry)];
      }
    }
    assert data[..|data|] == data;
  }

  /**
   * `aggregateData(data, viewType)`: `'5min'` returns the input; any other
   * view type folds the samples into a dictionary and lists its records.
   */
  method Aggregate(data: seq<Sample>, viewType: string) returns (v: View)
    ensures viewType == "5min" ==> v == Fine(data)
    ensures viewType != "5min" ==> v == Aggregated(Records(Fold(data, GranularityOf(viewType))))
    ensures viewType != "5min" ==> SumCounts(v.records) == |data|
    ensures viewType != "5min" ==> forall i :: 0 <= i < |v.records| ==>
      1 <= v.records[i].count && v.records[i].minLoad <= v.records[i].load <= v.records[i].maxLoad &&
      v.records[i].isOverload == (v.records[i].maxLoad > OverloadThreshold)
  {
    if viewType == "5min" {
      return Fine(data);
    }
    var g := GranularityOf(viewType);
    var order, buckets := Reduce(data, g);
    v := Aggregated(Records(Tally(order, buckets)));
    AggregatePartition(data, g);
    AggregateMeans(data, g);
  }
}
