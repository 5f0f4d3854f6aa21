/**
 * The value `readDataFile` returns: a dictionary from hour-aligned timestamps
 * to buckets, each bucket holding the four sample streams of that hour.
 * Python dictionaries keep insertion order, so the keys are also kept as a
 * sequence in the order in which the hours were first seen.
 */
module LogResults {
  import opened Util
  import opened Wire

  const SecondsPerHour: int := 3600

  /** One stream of one bucket: `times`, `values`, `start_time`, `end_time`. */
  datatype Stream = Stream(times: seq<real>, values: seq<seq<byte>>, startTime: int, endTime: int)

  /** The four streams of one hour, in the source's key order. */
  datatype Bucket = Bucket(gps: Stream, power: Stream, imu: Stream, baro: Stream)
  {
    function Get(k: Kind): Stream
    {
      match k
      case Gps => gps
      case Power => power
      case Imu => imu
      case Baro => baro
    }

    /** Replaces the stream of kind `k` and keeps the other three. */
    function Put(k: Kind, s: Stream): (b: Bucket)
      ensures b.Get(k) == s
      ensures forall other: Kind :: other != k ==> b.Get(other) == Get(other)
    {
      match k
      case Gps => this.(gps := s)
      case Power => this.(power := s)
      case Imu => this.(imu := s)
      case Baro => this.(baro := s)
    }
  }

  datatype Results = Results(order: seq<int>, buckets: map<int, Bucket>)

  const NoResults := Results([], map[])

  /**
   * The dictionary key of a timestamp, `np.floor(ts / 3600) * 3600`. Dafny's
   * `/` with a positive divisor is floor division, also for negative `ts`.
   */
  function HourKey(ts: int): (k: int)
    ensures k % SecondsPerHour == 0
    ensures k <= ts < k + SecondsPerHour
  {
    (ts / SecondsPerHour) * SecondsPerHour
  }

  /** The hour key is the only hour-aligned value within an hour below `ts`. */
  lemma HourKeyUnique(ts: int, k: int)
    requires k % SecondsPerHour == 0 && k <= ts < k + SecondsPerHour
    ensures HourKey(ts) == k
  {
    var b := k / SecondsPerHour;
    assert k == b * SecondsPerHour;
    assert ts / SecondsPerHour == b;
  }

  /** Two timestamps share a bucket exactly when they fall in the same hour-aligned interval. */
  lemma SameHour(t1: int, t2: int)
    ensures HourKey(t1) == HourKey(t2) <==> (HourKey(t1) <= t2 < HourKey(t1) + SecondsPerHour)
  {
    if HourKey(t1) <= t2 < HourKey(t1) + SecondsPerHour {
      HourKeyUnique(t2, HourKey(t1));
    }
  }

  /** The stream created by the first 't' chunk of an hour. */
  function EmptyStream(ts: int): Stream
  {
    Stream([], [], ts, ts + 1)
  }

  /** OpenIMUImporter.py lines 393-410: the first timestamp of a new hour opens all four streams. */
  function OpenBucket(res: Results, ts: int): (r: Results)
    ensures HourKey(ts) in r.buckets
    ensures HourKey(ts) in res.buckets ==> r == res
    ensures HourKey(ts) !in res.buckets ==>
              && r.order == res.order + [HourKey(ts)]
              && r.buckets.Keys == res.buckets.Keys + {HourKey(ts)}
              && (forall k :: k in res.buckets ==> r.buckets[k] == res.buckets[k])
              && (forall kind: Kind :: r.buckets[HourKey(ts)].Get(kind) == EmptyStream(ts))
  {
    var k := HourKey(ts);
    if k in res.buckets then res
    else
      var s := EmptyStream(ts);
      Results(res.order + [k], res.buckets[k := Bucket(s, s, s, s)])
  }

  /**
   * OpenIMUImporter.py lines 412-442: a sample read while the current timestamp is `ts` is
   * appended to its stream in bucket `k` and moves that stream's end to `ts + 1`.
   */
  function AddSample(res: Results, k: int, kind: Kind, payload: seq<byte>, ts: int): (r: Results)
    requires k in res.buckets
    ensures r.order == res.order && r.buckets.Keys == res.buckets.Keys
    ensures forall k' :: k' in res.buckets && k' != k ==> r.buckets[k'] == res.buckets[k']
    ensures forall other: Kind :: other != kind ==> r.buckets[k].Get(other) == res.buckets[k].Get(other)
    ensures var s, s' := res.buckets[k].Get(kind), r.buckets[k].Get(kind);
      s' == Stream(s.times, s.values + [payload], s.startTime, ts + 1)
  {
    var b := res.buckets[k];
    var s := b.Get(kind);
    Results(res.order, res.buckets[k := b.Put(kind, s.(values := s.values + [payload], endTime := ts + 1))])
  }

  // ---------------------------------------------------------------------------
  // OpenIMUImporter.py lines 450-459: times are generated once the whole file is read.

  /**
   * `np.linspace(start, end, num, endpoint=False)`: `num` evenly spaced
   * points from `start` with step `(end - start) / num`, computed exactly
   * (without float64 rounding).
   */
  function Linspace(start: int, end: int, num: nat): (r: seq<real>)
    ensures |r| == num
  {
    Points(start as real, if num == 0 then 0.0 else (end - start) as real / num as real, num)
  }

  /** The `n` points `start + k * step` for `k` from 0 up. */
  function Points(start: real, step: real, n: nat): (r: seq<real>)
    ensures |r| == n
  {
    if n == 0 then [] else Points(start, step, n - 1) + [start + (n - 1) as real * step]
  }

  /** Point `k` lies `k` steps from the start. */
  lemma {:induction false} PointsAt(start: real, step: real, n: nat, k: nat)
    requires k < n
    ensures Points(start, step, n)[k] == start + k as real * step
  {
    if k < n - 1 {
      PointsAt(start, step, n - 1, k);
    }
  }

  /** The generated times start at `start_time`, increase evenly and stay below `end_time`. */
  lemma LinspaceBounds(start: int, end: int, num: nat)
    requires start < end
    ensures var r := Linspace(start, end, num);
      && (num > 0 ==> r[0] == start as real)
      && (forall i, j :: 0 <= i < j < num ==> r[i] < r[j])
      && (forall i :: 0 <= i < num ==> start as real <= r[i] < end as real)
  {
    var r := Linspace(start, end, num);
    if num > 0 {
      var lo, step := start as real, (end - start) as real / num as real;
      StepFacts((end - start) as real, num as real);
      assert r == Points(lo, step, num);
      PointsAt(lo, step, num, 0);
      forall i, j | 0 <= i < j < num ensures r[i] < r[j] {
        PointsIncrease(lo, step, num, i, j);
      }
      forall i | 0 <= i < num ensures lo <= r[i] < end as real {
        PointBounds(lo, step, num, i);
      }
    }
  }

  lemma PointsIncrease(lo: real, step: real, n: nat, i: nat, j: nat)
    requires step > 0.0 && i < j < n
    ensures Points(lo, step, n)[i] < Points(lo, step, n)[j]
  {
    PointsAt(lo, step, n, i);
    PointsAt(lo, step, n, j);
    MulStrict(i as real, j as real, step);
  }

  lemma PointBounds(lo: real, step: real, n: nat, i: nat)
    requires step > 0.0 && i < n
    ensures lo <= Points(lo, step, n)[i] < lo + n as real * step
  {
    PointsAt(lo, step, n, i);
    MulStrict(i as real, n as real, step);
    MulNonneg(i as real, step);
  }

  /** A positive span split into `n` steps: the step is positive and `n` of them make the span. */
  lemma StepFacts(span: real, n: real)
    requires span > 0.0 && n > 0.0
    ensures span / n > 0.0 && n * (span / n) == span
  {
  }

  lemma MulNonneg(a: real, b: real)
    requires a >= 0.0 && b > 0.0
    ensures a * b >= 0.0
  {
  }

  lemma MulStrict(a: real, b: real, c: real)
    requires a < b && c > 0.0
    ensures a * c < b * c
  {
  }

  function FillStream(s: Stream): (r: Stream)
    ensures r.values == s.values && r.startTime == s.startTime && r.endTime == s.endTime
    ensures |r.times| == |r.values|
  {
    s.(times := Linspace(s.startTime, s.endTime, |s.values|))
  }

  function FillBucket(b: Bucket): (r: Bucket)
    ensures forall kind: Kind :: r.Get(kind) == FillStream(b.Get(kind))
  {
    Bucket(FillStream(b.gps), FillStream(b.power), FillStream(b.imu), FillStream(b.baro))
  }

  /** The results after the time generation pass: every stream has its times. */
  function FillTimes(res: Results): (r: Results)
    ensures r.order == res.order && r.buckets.Keys == res.buckets.Keys
    ensures forall k :: k in r.buckets ==> r.buckets[k] == FillBucket(res.buckets[k])
  {
    Results(res.order, map k | k in res.buckets :: FillBucket(res.buckets[k]))
  }

  // ---------------------------------------------------------------------------
  // The shape of what the reader builds.

  predicate Distinct(xs: seq<int>)
  {
    forall i, j :: 0 <= i < j < |xs| ==> xs[i] != xs[j]
  }

  /** The key order lists every key of the dictionary exactly once. */
  predicate KeyOrder(res: Results)
  {
    && Distinct(res.order)
    && (forall k :: k in res.buckets ==> k in res.order)
    && (forall i :: 0 <= i < |res.order| ==> res.order[i] in res.buckets)
  }

  /** A stream of bucket `k`: its start and its last timestamp lie in the hour `k`. */
  predicate StreamInHour(s: Stream, k: int)
  {
    HourKey(s.startTime) == k && HourKey(s.endTime - 1) == k
  }

  predicate Sized(values: seq<seq<byte>>, size: nat)
  {
    forall j :: 0 <= j < |values| ==> |values[j]| == size
  }

  /** Every sample of a bucket has the payload size of its kind. */
  predicate BucketSized(b: Bucket)
  {
    forall kind: Kind :: Sized(b.Get(kind).values, PayloadSize(kind))
  }

  /**
   * The results are shaped as the reader builds them: the key order lists
   * every key once, every key is hour-aligned, all four streams of a bucket
   * share their start, and every stream lies in its hour.
   */
  predicate Wellformed(res: Results)
  {
    && KeyOrder(res)
    && (forall k :: k in res.buckets ==> k % SecondsPerHour == 0)
    && (forall k :: k in res.buckets ==> BucketSized(res.buckets[k]))
    && (forall k, kind: Kind :: k in res.buckets ==> StreamInHour(res.buckets[k].Get(kind), k))
    && (forall k, kind: Kind :: k in res.buckets ==> res.buckets[k].Get(kind).startTime == res.buckets[k].gps.startTime)
  }

  /** Every stream has exactly as many times as values. */
  predicate TimesFilled(res: Results)
  {
    forall k, kind: Kind :: k in res.buckets ==> |res.buckets[k].Get(kind).times| == |res.buckets[k].Get(kind).values|
  }

  lemma OpenBucketWellformed(res: Results, ts: int)
    requires Wellformed(res)
    ensures Wellformed(OpenBucket(res, ts))
  {
    var k := HourKey(ts);
    if k !in res.buckets {
      var r := OpenBucket(res, ts);
      assert HourKey(ts + 1 - 1) == k;
      forall i, j | 0 <= i < j < |r.order| ensures r.order[i] != r.order[j] {
        if j == |res.order| {
          assert r.order[i] == res.order[i];
        }
      }
    }
  }

  lemma AddSampleWellformed(res: Results, ts: int, kind: Kind, payload: seq<byte>)
    requires Wellformed(res) && HourKey(ts) in res.buckets && |payload| == PayloadSize(kind)
    ensures Wellformed(AddSample(res, HourKey(ts), kind, payload, ts))
  {
    var k := HourKey(ts);
    var r := AddSample(res, k, kind, payload, ts);
    assert HourKey(ts + 1 - 1) == k;
    forall k' | k' in r.buckets
      ensures BucketSized(r.buckets[k'])
      ensures forall kind': Kind :: StreamInHour(r.buckets[k'].Get(kind'), k')
      ensures forall kind': Kind :: r.buckets[k'].Get(kind').startTime == r.buckets[k'].gps.startTime
    {
      if k' == k {
        AppendedBucket(res.buckets[k], r.buckets[k], k, kind, payload, ts);
      }
    }
  }

  /** The bucket `AddSample` changes keeps the shape of a bucket of hour `k`. */
  lemma AppendedBucket(b: Bucket, b': Bucket, k: int, kind: Kind, payload: seq<byte>, ts: int)
    requires BucketSized(b) && HourKey(ts) == k && |payload| == PayloadSize(kind)
    requires forall kind': Kind :: StreamInHour(b.Get(kind'), k) && b.Get(kind').startTime == b.gps.startTime
    requires forall other: Kind :: other != kind ==> b'.Get(other) == b.Get(other)
    requires var s := b.Get(kind); b'.Get(kind) == Stream(s.times, s.values + [payload], s.startTime, ts + 1)
    ensures BucketSized(b')
    ensures forall kind': Kind :: StreamInHour(b'.Get(kind'), k) && b'.Get(kind').startTime == b'.gps.startTime
  {
    assert HourKey(ts + 1 - 1) == k;
    assert b'.gps.startTime == b.gps.startTime by {
      assert b'.gps == b'.Get(Gps) && b.gps == b.Get(Gps);
    }
    var s, s' := b.Get(kind), b'.Get(kind);
    assert Sized(s.values, PayloadSize(kind));
    assert Sized(s'.values, PayloadSize(kind)) by {
      forall j | 0 <= j < |s'.values| ensures |s'.values[j]| == PayloadSize(kind) {
        if j < |s.values| { assert s'.values[j] == s.values[j]; }
      }
    }
  }

  /** The time generation pass keeps the shape and gives every stream its times. */
  lemma FillTimesWellformed(res: Results)
    requires Wellformed(res)
    ensures Wellformed(FillTimes(res)) && TimesFilled(FillTimes(res))
  {
    var r := FillTimes(res);
    forall k | k in r.buckets
      ensures BucketSized(r.buckets[k])
      ensures forall kind: Kind :: StreamInHour(r.buckets[k].Get(kind), k)
      ensures forall kind: Kind :: r.buckets[k].Get(kind).startTime == r.buckets[k].gps.startTime
      ensures forall kind: Kind :: |r.buckets[k].Get(kind).times| == |r.buckets[k].Get(kind).values|
    {
      FillBucketInHour(res.buckets[k], k);
    }
  }

  lemma FillBucketInHour(b: Bucket, k: int)
    requires BucketSized(b)
    requires forall kind: Kind :: StreamInHour(b.Get(kind), k) && b.Get(kind).startTime == b.gps.startTime
    ensures var f := FillBucket(b);
      && BucketSized(f)
      && (forall kind: Kind :: StreamInHour(f.Get(kind), k))
      && (forall kind: Kind :: f.Get(kind).startTime == f.gps.startTime)
      && (forall kind: Kind :: |f.Get(kind).times| == |f.Get(kind).values|)
  {
    var f := FillBucket(b);
    assert f.gps == FillStream(b.Get(Gps));
    forall kind: Kind ensures StreamInHour(f.Get(kind), k) && Sized(f.Get(kind).values, PayloadSize(kind)) {
      assert f.Get(kind).values == b.Get(kind).values;
    }
  }
}
