/**
 * `OpenIMUImporter`: groups the hour buckets of a log into recordsets (one
 * per calendar day) and hands each stream's columns to the database.
 *
 * The database is not part of this model. An importer keeps a ghost log of
 * the rows it would write (`add_sensor_data_to_db`) and of its commits; a
 * recordset that `db.add_recordset` would create is a fresh `Recordset`.
 */
module Importer {
  import opened Util
  import opened Wire
  import opened LogResults

  const SecondsPerDay: int := 86400

  /** The calendar date of a timestamp, as a day number (UTC). */
  function Day(ts: int): (d: int)
    ensures SecondsPerDay * d <= ts < SecondsPerDay * d + SecondsPerDay
  {
    ts / SecondsPerDay
  }

  /** An hour lies within one day: a timestamp has the date of its hour's key. */
  lemma DayOfHour(ts: int)
    ensures Day(ts) == Day(HourKey(ts))
  {
    var k := HourKey(ts);
    var q := k / SecondsPerHour;
    var d := k / SecondsPerDay;
    assert k == SecondsPerHour * q;
    var r := k - SecondsPerDay * d;
    assert 0 <= r < SecondsPerDay;
    assert r == SecondsPerHour * (q - 24 * d);
    assert r <= SecondsPerDay - SecondsPerHour;
    assert ts == SecondsPerDay * d + (r + ts - k);
  }

  /**
   * A recording session of one day: the date it is named after (that of its
   * start when created) and the interval it covers.
   */
  datatype Recordset = Recordset(day: int, startTime: int, endTime: int)

  /** The channels `create_sensor_and_channels` creates (OpenIMUImporter.py lines 182-286). */
  datatype Channel =
    | Accelerometer(axis: nat) | Gyro(axis: nat) | Magnetometer(axis: nat)
    | Battery | Current | GpsSirf | Pressure

  /** What the importer asks the database to do. */
  datatype DbWrite =
    | SensorData(day: int, channel: Channel, times: seq<real>, data: seq<seq<byte>>)
    | GpsFix(day: int, times: seq<real>, latitude: seq<byte>, longitude: seq<byte>)
    | Commit

  /** The bytes of float number `c` of a payload (natural alignment puts it at `4 * c`). */
  function Field(p: seq<byte>, c: nat): (f: seq<byte>)
    requires 4 * c + 4 <= |p|
    ensures |f| == 4
  {
    p[4 * c..4 * c + 4]
  }

  /** `values[:, c]`: float number `c` of every sample. */
  function Column(values: seq<seq<byte>>, c: nat): (col: seq<seq<byte>>)
    requires forall j :: 0 <= j < |values| ==> 4 * c + 4 <= |values[j]|
    ensures |col| == |values|
  {
    seq(|values|, j requires 0 <= j < |values| => Field(values[j], c))
  }

  // ---------------------------------------------------------------------------
  // Channel layouts of the four import helpers.

  /** The IMU channels in the order `import_imu_to_database` writes them. */
  const ImuChannels: seq<Channel> := [
    Accelerometer(0), Accelerometer(1), Accelerometer(2),
    Gyro(0), Gyro(1), Gyro(2),
    Magnetometer(0), Magnetometer(1), Magnetometer(2)]

  /** OpenIMUImporter.py lines 81-94: the float of an 'i' payload that an IMU channel stores. */
  function ImuColumn(ch: Channel): (c: nat)
    requires ch.Accelerometer? || ch.Gyro? || ch.Magnetometer?
    ensures ch.axis < 3 ==> c < |ImuChannels| && ImuChannels[c] == ch
  {
    if ch.Accelerometer? then ch.axis
    else if ch.Gyro? then ch.axis + 3
    else ch.axis + 6
  }

  /** The rows an IMU stream becomes, followed by the commit. */
  function ImuWrites(day: int, s: Stream): seq<DbWrite>
    requires Sized(s.values, PayloadSize(Imu))
  {
    seq(|ImuChannels|, k requires 0 <= k < |ImuChannels| =>
      SensorData(day, ImuChannels[k], s.times, Column(s.values, ImuColumn(ImuChannels[k]))))
    + [Commit]
  }

  /**
   * The nine IMU channels store the nine floats of an 'i' payload, each one
   * exactly once and in payload order: accelerometer axis `i` float `i`, gyro
   * axis `i` float `i + 3`, magnetometer axis `i` float `i + 6`.
   */
  lemma ImuWritesLayout(day: int, s: Stream)
    requires Sized(s.values, PayloadSize(Imu))
    ensures var w := ImuWrites(day, s);
      && |w| == 10 && w[9] == Commit
      && (forall i :: 0 <= i < 3 ==>
            && w[i] == SensorData(day, Accelerometer(i), s.times, Column(s.values, i))
            && w[i + 3] == SensorData(day, Gyro(i), s.times, Column(s.values, i + 3))
            && w[i + 6] == SensorData(day, Magnetometer(i), s.times, Column(s.values, i + 6)))
  {
  }

  /** OpenIMUImporter.py lines 114-118: battery is float 0 of a 'p' payload and current float 1. */
  function PowerWrites(day: int, s: Stream): seq<DbWrite>
    requires Sized(s.values, PayloadSize(Power))
  {
    [SensorData(day, Battery, s.times, Column(s.values, 0)),
     SensorData(day, Current, s.times, Column(s.values, 1)),
     Commit]
  }

  /** OpenIMUImporter.py lines 174-175: the pressure is float 1 of a 'b' payload. */
  function BaroWrites(day: int, s: Stream): seq<DbWrite>
    requires Sized(s.values, PayloadSize(Baro))
  {
    [SensorData(day, Pressure, s.times, Column(s.values, 1)), Commit]
  }

  /**
   * A 32-bit float, stored little-endian, is a NaN: its eight exponent bits
   * (the low seven bits of byte 3 and the top bit of byte 2) are all set and
   * its 23 fraction bits (the rest of byte 2, bytes 1 and 0) are not all clear.
   */
  predicate IsNaN32(f: seq<byte>)
    requires |f| == 4
  {
    && f[3] % 128 == 127 && f[2] >= 128
    && (f[2] % 128 != 0 || f[1] != 0 || f[0] != 0)
  }

  /**
   * The test on the bytes is the float32 NaN test on the bit pattern: with
   * `bits` the little-endian 32-bit word, the exponent `bits >> 23 & 0xff`
   * is all ones and the fraction `bits & 0x7f_ffff` is not zero.
   */
  lemma IsNaN32Bits(f: seq<byte>)
    requires |f| == 4
    ensures var bits := f[0] as int + 0x100 * f[1] as int + 0x1_0000 * f[2] as int + 0x100_0000 * f[3] as int;
      IsNaN32(f) <==> (bits / 0x80_0000) % 0x100 == 0xff && bits % 0x80_0000 != 0
  {
    var b0: int, b1: int, b2: int, b3: int := f[0], f[1], f[2], f[3];
    var bits := b0 + 0x100 * b1 + 0x1_0000 * b2 + 0x100_0000 * b3;
    var fraction := b0 + 0x100 * b1 + 0x1_0000 * (b2 % 128);
    var q := 2 * b3 + b2 / 128;
    assert b2 == 128 * (b2 / 128) + b2 % 128;
    assert bits == 0x80_0000 * q + fraction;
    assert 0 <= fraction < 0x80_0000;
    assert bits / 0x80_0000 == q && bits % 0x80_0000 == fraction;
    assert b3 == 128 * (b3 / 128) + b3 % 128;
    if b3 % 128 == 127 && b2 >= 128 {
      assert q == 256 * (b3 / 128) + 255;
    }
    if q % 0x100 == 0xff {
      assert q == 256 * (b3 / 128) + 2 * (b3 % 128) + b2 / 128;
    }
  }

  /** OpenIMUImporter.py line 141: a GPS sample is kept when neither its latitude nor its longitude is NaN. */
  predicate GpsUsable(p: seq<byte>)
    requires |p| == PayloadSize(Gps)
  {
    !IsNaN32(Field(p, 1)) && !IsNaN32(Field(p, 2))
  }

  /** `times[i:i+1]` */
  function TimesAt(times: seq<real>, i: nat): (t: seq<real>)
    ensures |t| <= 1
    ensures i < |times| ==> t == [times[i]]
  {
    if i < |times| then [times[i]] else []
  }

  /**
   * The fix sample `i` gives (OpenIMUImporter.py lines 148-152): its time,
   * latitude from float 1 and longitude from float 2.
   */
  function FixOf(day: int, s: Stream, i: nat): (w: DbWrite)
    requires i < |s.values| && Sized(s.values, PayloadSize(Gps))
    ensures w.GpsFix? && w.day == day && w.times == TimesAt(s.times, i)
    ensures w.latitude == Field(s.values[i], 1) && w.longitude == Field(s.values[i], 2)
  {
    GpsFix(day, TimesAt(s.times, i), Field(s.values[i], 1), Field(s.values[i], 2))
  }

  /**
   * OpenIMUImporter.py lines 137-154: the GPS fixes of the first `n` samples, one per sample
   * whose coordinates are both numbers, each with that sample's time.
   */
  function GpsFixes(day: int, s: Stream, n: nat): (w: seq<DbWrite>)
    requires n <= |s.values| && Sized(s.values, PayloadSize(Gps))
    ensures |w| <= n
    ensures forall m :: 0 <= m < |w| ==>
              && w[m].GpsFix? && w[m].day == day
              && |w[m].latitude| == 4 && |w[m].longitude| == 4
              && !IsNaN32(w[m].latitude) && !IsNaN32(w[m].longitude)
  {
    if n == 0 then []
    else
      var p := s.values[n - 1];
      GpsFixes(day, s, n - 1) + (if GpsUsable(p) then [FixOf(day, s, n - 1)] else [])
  }

  /** The positions, in increasing order, of the usable samples among the first `n`. */
  function UsableIndices(s: Stream, n: nat): (ix: seq<nat>)
    requires n <= |s.values| && Sized(s.values, PayloadSize(Gps))
    ensures forall m :: 0 <= m < |ix| ==> ix[m] < n && GpsUsable(s.values[ix[m]])
    ensures forall m, m' :: 0 <= m < m' < |ix| ==> ix[m] < ix[m']
    ensures forall i :: 0 <= i < n && GpsUsable(s.values[i]) ==> i in ix
  {
    if n == 0 then []
    else UsableIndices(s, n - 1) + (if GpsUsable(s.values[n - 1]) then [n - 1] else [])
  }

  /**
   * OpenIMUImporter.py lines 137-154, exactly: the fixes are those of the
   * usable samples, one each, in sample order.
   */
  lemma {:induction false} GpsFixesExact(day: int, s: Stream, n: nat)
    requires n <= |s.values| && Sized(s.values, PayloadSize(Gps))
    ensures var w, ix := GpsFixes(day, s, n), UsableIndices(s, n);
      |w| == |ix| && forall m :: 0 <= m < |w| ==> w[m] == FixOf(day, s, ix[m])
  {
    if n > 0 {
      GpsFixesExact(day, s, n - 1);
    }
  }

  /** Every usable sample among the first `n` yields its fix. */
  lemma GpsFixesComplete(day: int, s: Stream, n: nat, i: nat)
    requires n <= |s.values| && Sized(s.values, PayloadSize(Gps))
    requires i < n && GpsUsable(s.values[i])
    ensures FixOf(day, s, i) in GpsFixes(day, s, n)
  {
    var ix := UsableIndices(s, n);
    GpsFixesExact(day, s, n);
    var m :| 0 <= m < |ix| && ix[m] == i;
    assert GpsFixes(day, s, n)[m] == FixOf(day, s, i);
  }

  /** An import helper writes nothing, and does not commit, for a stream without samples. */
  function Part(s: Stream, w: seq<DbWrite>): seq<DbWrite>
  {
    if |s.values| == 0 then [] else w
  }

  /** What the import helper of kind `k` writes for stream `s` on day `day`. */
  function StreamWrites(k: Kind, day: int, s: Stream): seq<DbWrite>
    requires Sized(s.values, PayloadSize(k))
  {
    Part(s, match k
      case Imu => ImuWrites(day, s)
      case Power => PowerWrites(day, s)
      case Gps => GpsFixes(day, s, |s.values|) + [Commit]
      case Baro => BaroWrites(day, s))
  }

  /** Everything `import_to_database` writes for one bucket (OpenIMUImporter.py lines 300-331). */
  function BucketWrites(b: Bucket): seq<DbWrite>
    requires Sized(b.imu.values, PayloadSize(Imu)) && Sized(b.power.values, PayloadSize(Power))
    requires Sized(b.gps.values, PayloadSize(Gps)) && Sized(b.baro.values, PayloadSize(Baro))
  {
    StreamWrites(Imu, Day(b.imu.startTime), b.imu)
    + StreamWrites(Power, Day(b.power.startTime), b.power)
    + StreamWrites(Gps, Day(b.gps.startTime), b.gps)
    + StreamWrites(Baro, Day(b.baro.startTime), b.baro)
  }

  /** The writes for the buckets with the keys `keys`, in that order. */
  function ImportWrites(res: Results, keys: seq<int>): seq<DbWrite>
    requires forall k :: k in res.buckets ==> BucketSized(res.buckets[k])
    requires forall i :: 0 <= i < |keys| ==> keys[i] in res.buckets
  {
    if keys == [] then []
    else
      var key := keys[|keys| - 1];
      assert key in res.buckets;
      var b := res.buckets[key];
      assert BucketSized(b);
      assert Sized(b.gps.values, PayloadSize(Gps)) && Sized(b.imu.values, PayloadSize(Imu));
      assert Sized(b.power.values, PayloadSize(Power)) && Sized(b.baro.values, PayloadSize(Baro));
      ImportWrites(res, keys[..|keys| - 1]) + BucketWrites(b)
  }

  /** A well-formed result has a sized bucket for every key of its order. */
  lemma ImportableKeys(res: Results)
    requires Wellformed(res)
    ensures forall k :: k in res.buckets ==> BucketSized(res.buckets[k])
    ensures forall i :: 0 <= i < |res.order| ==> res.order[i] in res.buckets
  {
  }

  /** `ImportWrites` over one more key appends that key's bucket. */
  lemma ImportWritesStep(res: Results, keys: seq<int>, i: nat)
    requires forall k :: k in res.buckets ==> BucketSized(res.buckets[k])
    requires forall j :: 0 <= j < |keys| ==> keys[j] in res.buckets
    requires i < |keys|
    ensures ImportWrites(res, keys[..i + 1]) == ImportWrites(res, keys[..i]) + BucketWrites(res.buckets[keys[i]])
  {
    assert keys[..i + 1][..i] == keys[..i];
  }

  /** Every row a stream import writes carries the day it was given. */
  lemma StreamWritesDay(k: Kind, day: int, s: Stream)
    requires Sized(s.values, PayloadSize(k))
    ensures forall w :: w in StreamWrites(k, day, s) && !w.Commit? ==> w.day == day
  {
    if |s.values| > 0 && k == Imu {
      var w := ImuWrites(day, s);
      assert forall m :: 0 <= m < |w| && !w[m].Commit? ==> w[m].day == day;
    }
  }

  /**
   * The rows of a bucket of a well-formed result all carry the date of the
   * bucket's hour, whichever of its streams they come from.
   */
  lemma BucketWritesDay(res: Results, key: int)
    requires Wellformed(res) && key in res.buckets
    ensures var b := res.buckets[key];
      forall w :: w in BucketWrites(b) && !w.Commit? ==> w.day == Day(key)
  {
    var b := res.buckets[key];
    forall kind: Kind
      ensures Sized(b.Get(kind).values, PayloadSize(kind))
      ensures forall w :: w in StreamWrites(kind, Day(b.Get(kind).startTime), b.Get(kind)) && !w.Commit? ==> w.day == Day(key)
    {
      var st := b.Get(kind);
      assert StreamInHour(st, key);
      DayOfHour(st.startTime);
      StreamWritesDay(kind, Day(st.startTime), st);
    }
    assert b.imu == b.Get(Imu) && b.power == b.Get(Power) && b.gps == b.Get(Gps) && b.baro == b.Get(Baro);
  }

  /** Importing the keys `a + c` writes what importing `a`, then `c`, writes. */
  lemma {:induction false} ImportWritesAppend(res: Results, a: seq<int>, c: seq<int>)
    requires forall k :: k in res.buckets ==> BucketSized(res.buckets[k])
    requires forall i :: 0 <= i < |a| ==> a[i] in res.buckets
    requires forall i :: 0 <= i < |c| ==> c[i] in res.buckets
    ensures forall i :: 0 <= i < |a + c| ==> (a + c)[i] in res.buckets
    ensures ImportWrites(res, a + c) == ImportWrites(res, a) + ImportWrites(res, c)
    decreases |c|
  {
    assert forall i :: 0 <= i < |a + c| ==> (a + c)[i] in res.buckets by {
      forall i | 0 <= i < |a + c| ensures (a + c)[i] in res.buckets {
        if i < |a| { assert (a + c)[i] == a[i]; } else { assert (a + c)[i] == c[i - |a|]; }
      }
    }
    if c == [] {
      assert a + c == a;
    } else {
      var init := c[..|c| - 1];
      assert (a + c)[..|a + c| - 1] == a + init;
      assert (a + c)[|a + c| - 1] == c[|c| - 1];
      ImportWritesAppend(res, a, init);
    }
  }

  /**
   * Every row `import_to_database` writes for a well-formed result carries
   * the date of one of the result's hours.
   */
  lemma {:induction false} ImportWritesDays(res: Results, keys: seq<int>)
    requires Wellformed(res)
    requires forall i :: 0 <= i < |keys| ==> keys[i] in res.buckets
    ensures forall w :: w in ImportWrites(res, keys) && !w.Commit? ==> exists k :: k in keys && w.day == Day(k)
  {
    if keys != [] {
      var init := keys[..|keys| - 1];
      var key := keys[|keys| - 1];
      ImportWritesDays(res, init);
      BucketWritesDay(res, key);
      assert forall k :: k in init ==> k in keys;
    }
  }

  // ---------------------------------------------------------------------------
  // The recordset list.

  /** Each recordset is named after the date of its start, and no two share a date. */
  predicate ValidRecordsets(rs: seq<Recordset>)
  {
    && (forall i :: 0 <= i < |rs| ==> Day(rs[i].startTime) == rs[i].day)
    && (forall i, j :: 0 <= i < j < |rs| ==> rs[i].day != rs[j].day)
  }

  /** `after` keeps the recordsets of `before`, in place, each with the same date and an interval at least as wide. */
  predicate Widens(before: seq<Recordset>, after: seq<Recordset>)
  {
    && |before| <= |after|
    && forall i :: 0 <= i < |before| ==>
         && after[i].day == before[i].day
         && after[i].startTime <= before[i].startTime && before[i].endTime <= after[i].endTime
  }

  lemma WidensTrans(a: seq<Recordset>, b: seq<Recordset>, c: seq<Recordset>)
    requires Widens(a, b) && Widens(b, c)
    ensures Widens(a, c)
  {
  }

  /** OpenIMUImporter.py lines 35-37: the position of the first recordset whose start has date `d`. */
  function FindDay(rs: seq<Recordset>, d: int): (j: Option<nat>)
    ensures j.Some? ==> j.value < |rs| && Day(rs[j.value].startTime) == d
    ensures j.Some? ==> forall i :: 0 <= i < j.value ==> Day(rs[i].startTime) != d
    ensures j.None? ==> forall i :: 0 <= i < |rs| ==> Day(rs[i].startTime) != d
  {
    if rs == [] then None
    else if Day(rs[0].startTime) == d then Some(0)
    else match FindDay(rs[1..], d)
      case None => None
      case Some(j) => Some(j + 1)
  }

  /**
   * OpenIMUImporter.py lines 30-48: the recordsets after `get_recordset(start, end)` and the
   * position of the one it returns. The first recordset of the date of
   * `start` is widened to cover `start`..`end`; without one, a recordset of
   * exactly `start`..`end` is appended.
   */
  function Lookup(rs: seq<Recordset>, start: int, end: int): (r: (seq<Recordset>, nat))
    ensures r.1 < |r.0| && Day(r.0[r.1].startTime) == Day(start)
    ensures r.0[r.1].startTime <= start && end <= r.0[r.1].endTime
    ensures ValidRecordsets(rs) ==> r.0[r.1].day == Day(start)
    ensures Widens(rs, r.0) && |r.0| <= |rs| + 1
    ensures forall i :: 0 <= i < |rs| && i != r.1 ==> r.0[i] == rs[i]
    ensures FindDay(rs, Day(start)).None? <==> r.0 == rs + [Recordset(Day(start), start, end)]
    ensures FindDay(rs, Day(start)).Some? ==> |r.0| == |rs|
    ensures ValidRecordsets(rs) ==> ValidRecordsets(r.0)
  {
    match FindDay(rs, Day(start))
    case Some(j) =>
      var s := rs[j];
      (rs[j := Recordset(s.day, Min(s.startTime, start), Max(s.endTime, end))], j)
    case None =>
      (rs + [Recordset(Day(start), start, end)], |rs|)
  }

  /** OpenIMUImporter.py lines 39-42: a recordset of the right date is widened only where the request goes beyond it. */
  lemma LookupWidensOnlyAsNeeded(rs: seq<Recordset>, start: int, end: int)
    requires FindDay(rs, Day(start)).Some?
    ensures var j, r := FindDay(rs, Day(start)).value, Lookup(rs, start, end);
      && r.0 == rs[j := r.0[j]] && r.1 == j
      && r.0[j].startTime == (if start < rs[j].startTime then start else rs[j].startTime)
      && r.0[j].endTime == (if end > rs[j].endTime then end else rs[j].endTime)
  {
  }

  // ---------------------------------------------------------------------------
  // The recordsets import_to_database leaves, on values.

  /** The span of a stream that `import_to_database` asks a recordset to cover (OpenIMUImporter.py lines 300-327). */
  function RequestEnd(k: Kind, s: Stream): int
  {
    if k == Imu then s.endTime else s.startTime
  }

  /**
   * The recordsets after one stream of a bucket (OpenIMUImporter.py lines 300-331): the lookup
   * of the stream's start and requested end, then, for a non-empty IMU
   * stream, `import_imu_to_database` raising the end of the recordset found
   * to the stream's end (OpenIMUImporter.py lines 70-74).
   */
  function StreamRecordsets(rs: seq<Recordset>, k: Kind, s: Stream): seq<Recordset>
  {
    var (after, j) := Lookup(rs, s.startTime, RequestEnd(k, s));
    if k == Imu && |s.values| > 0 then after[j := after[j].(endTime := Max(after[j].endTime, s.endTime))]
    else after
  }

  /** The four streams of a bucket, in the order `import_to_database` imports them (OpenIMUImporter.py lines 300-331). */
  function BucketStreams(b: Bucket): seq<(Kind, Stream)>
  {
    [(Imu, b.imu), (Power, b.power), (Gps, b.gps), (Baro, b.baro)]
  }

  /** The recordsets after the streams `ss`, in order. */
  function StreamsRecordsets(rs: seq<Recordset>, ss: seq<(Kind, Stream)>): seq<Recordset>
    decreases |ss|
  {
    if ss == [] then rs else StreamsRecordsets(StreamRecordsets(rs, ss[0].0, ss[0].1), ss[1..])
  }

  /** The recordsets after the four streams of a bucket. */
  function BucketRecordsets(rs: seq<Recordset>, b: Bucket): seq<Recordset>
  {
    StreamsRecordsets(rs, BucketStreams(b))
  }

  /** A bucket's streams are imported one after the other: IMU, power, GPS, barometer. */
  lemma BucketRecordsetsInOrder(rs: seq<Recordset>, b: Bucket)
    ensures BucketRecordsets(rs, b)
      == StreamRecordsets(StreamRecordsets(StreamRecordsets(StreamRecordsets(rs, Imu, b.imu), Power, b.power), Gps, b.gps), Baro, b.baro)
  {
    var ss := BucketStreams(b);
    var r1 := StreamRecordsets(rs, Imu, b.imu);
    var r2 := StreamRecordsets(r1, Power, b.power);
    var r3 := StreamRecordsets(r2, Gps, b.gps);
    assert StreamsRecordsets(rs, ss) == StreamsRecordsets(r1, ss[1..]);
    assert StreamsRecordsets(r1, ss[1..]) == StreamsRecordsets(r2, ss[2..]);
    assert StreamsRecordsets(r2, ss[2..]) == StreamsRecordsets(r3, ss[3..]);
    assert StreamsRecordsets(r3, ss[3..]) == StreamsRecordsets(StreamRecordsets(r3, Baro, b.baro), []);
  }

  /** The recordsets after the buckets with the keys `keys`, in that order. */
  function ImportRecordsets(rs: seq<Recordset>, res: Results, keys: seq<int>): seq<Recordset>
    requires forall i :: 0 <= i < |keys| ==> keys[i] in res.buckets
  {
    if keys == [] then rs
    else BucketRecordsets(ImportRecordsets(rs, res, keys[..|keys| - 1]), res.buckets[keys[|keys| - 1]])
  }

  /** `ImportRecordsets` over one more key imports that key's bucket. */
  lemma ImportRecordsetsStep(rs: seq<Recordset>, res: Results, keys: seq<int>, i: nat)
    requires forall j :: 0 <= j < |keys| ==> keys[j] in res.buckets
    requires i < |keys|
    ensures ImportRecordsets(rs, res, keys[..i + 1]) == BucketRecordsets(ImportRecordsets(rs, res, keys[..i]), res.buckets[keys[i]])
  {
    assert keys[..i + 1][..i] == keys[..i];
  }

  /**
   * Some recordset named after the date of the stream's start covers the
   * stream's start and the end asked for it.
   */
  predicate Covers(rs: seq<Recordset>, k: Kind, s: Stream)
  {
    exists j :: 0 <= j < |rs| && rs[j].day == Day(s.startTime)
      && rs[j].startTime <= s.startTime && RequestEnd(k, s) <= rs[j].endTime
  }

  /** Widening keeps whatever was covered covered. */
  lemma WidensCovers(a: seq<Recordset>, b: seq<Recordset>, k: Kind, s: Stream)
    requires Widens(a, b) && Covers(a, k, s)
    ensures Covers(b, k, s)
  {
    var j :| 0 <= j < |a| && a[j].day == Day(s.startTime)
      && a[j].startTime <= s.startTime && RequestEnd(k, s) <= a[j].endTime;
    assert b[j].day == Day(s.startTime) && b[j].startTime <= s.startTime && RequestEnd(k, s) <= b[j].endTime;
  }

  /**
   * One stream keeps recordset dates distinct, only widens the recordsets it
   * finds, covers the stream, and adds at most one recordset, named after
   * the date of the stream's start. For IMU the end raise never goes beyond
   * what the lookup already covers.
   */
  lemma StreamRecordsetsFacts(rs: seq<Recordset>, k: Kind, s: Stream)
    requires ValidRecordsets(rs)
    ensures var r := StreamRecordsets(rs, k, s);
      && ValidRecordsets(r) && Widens(rs, r) && Covers(r, k, s)
      && |r| <= |rs| + 1
      && (forall i :: |rs| <= i < |r| ==> r[i].day == Day(s.startTime))
    ensures k == Imu ==> StreamRecordsets(rs, k, s) == Lookup(rs, s.startTime, s.endTime).0
  {
    var (after, j) := Lookup(rs, s.startTime, RequestEnd(k, s));
    assert after[j].day == Day(s.startTime);
    if k == Imu && |s.values| > 0 {
      assert after[j := after[j].(endTime := Max(after[j].endTime, s.endTime))] == after;
    }
    assert Covers(after, k, s);
    if FindDay(rs, Day(s.startTime)).None? {
      assert after == rs + [Recordset(Day(s.startTime), s.startTime, RequestEnd(k, s))];
    }
  }

  /** Every stream of bucket `b` starts on the date of `key`. */
  predicate BucketDated(b: Bucket, key: int)
  {
    forall kind: Kind :: Day(b.Get(kind).startTime) == Day(key)
  }

  /** In a well-formed result every bucket's streams start on the date of its hour. */
  lemma WellformedDated(res: Results, key: int)
    requires Wellformed(res) && key in res.buckets
    ensures BucketDated(res.buckets[key], key)
  {
    var b := res.buckets[key];
    forall kind: Kind ensures Day(b.Get(kind).startTime) == Day(key) {
      assert StreamInHour(b.Get(kind), key);
      DayOfHour(b.Get(kind).startTime);
    }
  }

  /**
   * Streams that all start on the date of `key` keep recordset dates
   * distinct, only widen, are each covered, and name every recordset they
   * add after the date of `key`.
   */
  lemma {:induction false} StreamsRecordsetsFacts(rs: seq<Recordset>, ss: seq<(Kind, Stream)>, key: int)
    requires ValidRecordsets(rs)
    requires forall i :: 0 <= i < |ss| ==> Day(ss[i].1.startTime) == Day(key)
    ensures var r := StreamsRecordsets(rs, ss);
      && ValidRecordsets(r) && Widens(rs, r)
      && (forall i :: 0 <= i < |ss| ==> Covers(r, ss[i].0, ss[i].1))
      && (forall i :: |rs| <= i < |r| ==> r[i].day == Day(key))
    decreases |ss|
  {
    if ss != [] {
      var next := StreamRecordsets(rs, ss[0].0, ss[0].1);
      StreamRecordsetsFacts(rs, ss[0].0, ss[0].1);
      StreamsRecordsetsFacts(next, ss[1..], key);
      var r := StreamsRecordsets(next, ss[1..]);
      WidensTrans(rs, next, r);
      WidensCovers(next, r, ss[0].0, ss[0].1);
      forall i | 0 <= i < |ss| ensures Covers(r, ss[i].0, ss[i].1) {
        if i > 0 {
          assert ss[i] == ss[1..][i - 1];
        }
      }
    }
  }

  /**
   * A bucket keeps recordset dates distinct, only widens, covers each of its
   * four streams, and names every recordset it adds after the date of `key`.
   */
  lemma BucketRecordsetsFacts(rs: seq<Recordset>, b: Bucket, key: int)
    requires ValidRecordsets(rs) && BucketDated(b, key)
    ensures var r := BucketRecordsets(rs, b);
      && ValidRecordsets(r) && Widens(rs, r)
      && (forall kind: Kind :: Covers(r, kind, b.Get(kind)))
      && (forall i :: |rs| <= i < |r| ==> r[i].day == Day(key))
  {
    var ss := BucketStreams(b);
    assert forall i :: 0 <= i < |ss| ==> ss[i].1 == b.Get(ss[i].0);
    StreamsRecordsetsFacts(rs, ss, key);
    forall kind: Kind ensures Covers(BucketRecordsets(rs, b), kind, b.Get(kind)) {
      var i := match kind case Imu => 0 case Power => 1 case Gps => 2 case Baro => 3;
      assert ss[i] == (kind, b.Get(kind));
    }
  }

  /**
   * The recordsets after the buckets with keys `keys`, each of whose streams
   * start on its key's date: dates stay distinct, existing recordsets are
   * only widened, every stream of every bucket is covered by a recordset of
   * its date, and every recordset added is named after the date of a key.
   */
  lemma {:induction false} ImportRecordsetsFacts(rs: seq<Recordset>, res: Results, keys: seq<int>)
    requires ValidRecordsets(rs)
    requires forall i :: 0 <= i < |keys| ==> keys[i] in res.buckets && BucketDated(res.buckets[keys[i]], keys[i])
    ensures var r := ImportRecordsets(rs, res, keys);
      && ValidRecordsets(r) && Widens(rs, r)
      && (forall i, kind: Kind :: 0 <= i < |keys| ==> Covers(r, kind, res.buckets[keys[i]].Get(kind)))
      && (forall i :: |rs| <= i < |r| ==> DateOfSome(r[i].day, keys))
  {
    if keys != [] {
      var init := keys[..|keys| - 1];
      var key := keys[|keys| - 1];
      ImportRecordsetsFacts(rs, res, init);
      var before := ImportRecordsets(rs, res, init);
      var b := res.buckets[key];
      var r := BucketRecordsets(before, b);
      assert r == ImportRecordsets(rs, res, keys);
      BucketRecordsetsFacts(before, b, key);
      WidensTrans(rs, before, r);
      CoversStep(before, r, res, keys, b);
      NewDaysStep(rs, before, r, keys);
    }
  }

  /** Widening keeps the streams of earlier keys covered; together with the new key's streams, all are. */
  lemma CoversStep(before: seq<Recordset>, r: seq<Recordset>, res: Results, keys: seq<int>, b: Bucket)
    requires |keys| > 0 && Widens(before, r)
    requires forall i :: 0 <= i < |keys| ==> keys[i] in res.buckets
    requires var init := keys[..|keys| - 1];
      forall i, kind: Kind :: 0 <= i < |init| ==> Covers(before, kind, res.buckets[init[i]].Get(kind))
    requires b == res.buckets[keys[|keys| - 1]] && forall kind: Kind :: Covers(r, kind, b.Get(kind))
    ensures forall i, kind: Kind :: 0 <= i < |keys| ==> Covers(r, kind, res.buckets[keys[i]].Get(kind))
  {
    var init := keys[..|keys| - 1];
    forall i, kind: Kind | 0 <= i < |keys| ensures Covers(r, kind, res.buckets[keys[i]].Get(kind)) {
      if i < |init| {
        assert keys[i] == init[i];
        WidensCovers(before, r, kind, res.buckets[init[i]].Get(kind));
      }
    }
  }

  /** `d` is the date of one of the keys `keys`. */
  predicate DateOfSome(d: int, keys: seq<int>)
  {
    exists m :: 0 <= m < |keys| && d == Day(keys[m])
  }

  /** The recordsets one more key adds have its date; those added before have the date of an earlier key. */
  lemma NewDaysStep(rs: seq<Recordset>, before: seq<Recordset>, r: seq<Recordset>, keys: seq<int>)
    requires |keys| > 0 && |before| <= |r|
    requires forall i :: |rs| <= i < |before| ==> DateOfSome(before[i].day, keys[..|keys| - 1])
    requires forall i :: 0 <= i < |before| ==> r[i].day == before[i].day
    requires forall i :: |before| <= i < |r| ==> r[i].day == Day(keys[|keys| - 1])
    ensures forall i :: |rs| <= i < |r| ==> DateOfSome(r[i].day, keys)
  {
    var init := keys[..|keys| - 1];
    forall i | |rs| <= i < |r| ensures DateOfSome(r[i].day, keys) {
      if i < |before| {
        assert DateOfSome(before[i].day, init);
        var m :| 0 <= m < |init| && before[i].day == Day(init[m]);
        assert keys[m] == init[m];
      } else {
        assert keys[|keys| - 1] == keys[|keys| - 1];
      }
    }
  }

  /**
   * OpenIMUImporter.py lines 289-334: `import_to_database` groups a well-formed result into
   * day recordsets. Afterwards dates are distinct, so each date has at most
   * one recordset; every stream of every hour is covered by the recordset of
   * the hour's date (the IMU stream over its whole interval, the others at
   * their start); existing recordsets were only widened; and every new
   * recordset is named after the date of one of the hours.
   */
  lemma ImportGroupsByDay(rs: seq<Recordset>, res: Results)
    requires ValidRecordsets(rs) && Wellformed(res)
    ensures forall i :: 0 <= i < |res.order| ==> res.order[i] in res.buckets
    ensures var r := ImportRecordsets(rs, res, res.order);
      && ValidRecordsets(r) && Widens(rs, r)
      && (forall i, kind: Kind :: 0 <= i < |res.order| ==>
            Covers(r, kind, res.buckets[res.order[i]].Get(kind)) && Day(res.buckets[res.order[i]].Get(kind).startTime) == Day(res.order[i]))
      && (forall i :: |rs| <= i < |r| ==> DateOfSome(r[i].day, res.order))
  {
    ImportableKeys(res);
    forall i | 0 <= i < |res.order| ensures BucketDated(res.buckets[res.order[i]], res.order[i]) {
      WellformedDated(res, res.order[i]);
    }
    ImportRecordsetsFacts(rs, res, res.order);
  }

  class OpenImuImporter {
    var recordsets: seq<Recordset>
    /** The rows and commits sent to the database, oldest first. */
    ghost var writes: seq<DbWrite>

    ghost predicate Valid()
      reads this
    {
      ValidRecordsets(recordsets)
    }

    /** OpenIMUImporter.py line 28: a new importer starts with an empty list. */
    constructor ()
      ensures Valid() && recordsets == [] && writes == []
    {
      recordsets := [];
      writes := [];
    }

    /**
     * OpenIMUImporter.py lines 30-48: the position of the recordset of the date of `start`,
     * widened to cover `start`..`end`; of a new one, appended to the list,
     * when no recordset has that date.
     */
    method GetRecordset(start: int, end: int) returns (j: nat)
      requires Valid()
      modifies this`recordsets
      ensures Valid()
      ensures (recordsets, j) == Lookup(old(recordsets), start, end)
    {
      var i := 0;
      while i < |recordsets|
        invariant i <= |recordsets|
        invariant forall m :: 0 <= m < i ==> Day(recordsets[m].startTime) != Day(start)
      {
        var record := recordsets[i];
        if Day(record.startTime) == Day(start) {
          assert FindDay(recordsets, Day(start)) == Some(i);
          if start < record.startTime {
            record := record.(startTime := start);
          }
          if end > record.endTime {
            record := record.(endTime := end);
          }
          recordsets := recordsets[i := record];
          return i;
        }
        i := i + 1;
      }
      // none of that date: a new one, named after the date of its start
      recordsets := recordsets + [Recordset(Day(start), start, end)];
      return |recordsets| - 1;
    }

    /**
     * OpenIMUImporter.py lines 62-98: the IMU rows of one stream, written under the recordset
     * at position `j`, whose end is raised if the stream ends later.
     */
    method ImportImu(j: nat, s: Stream) returns (ok: bool)
      requires Valid() && j < |recordsets| && Sized(s.values, PayloadSize(Imu))
      modifies this
      ensures Valid() && Widens(old(recordsets), recordsets)
      ensures ok == (|s.values| > 0)
      ensures var rec := old(recordsets[j]);
        recordsets == old(recordsets)[j := if ok then rec.(endTime := Max(rec.endTime, s.endTime)) else rec]
      ensures writes == old(writes) + Part(s, ImuWrites(recordsets[j].day, s))
    {
      if |s.values| == 0 {
        return false;
      }
      var endTimestamp := s.endTime;
      if endTimestamp > recordsets[j].endTime {
        recordsets := recordsets[j := recordsets[j].(endTime := endTimestamp)];
      }
      WriteImuChannels(recordsets[j], s);
      return true;
    }

    /** OpenIMUImporter.py lines 81-96: the nine IMU channels of a stream with samples, then a commit. */
    method WriteImuChannels(rec: Recordset, s: Stream)
      requires Sized(s.values, PayloadSize(Imu))
      modifies this`writes
      ensures writes == old(writes) + ImuWrites(rec.day, s)
    {
      ghost var all := ImuWrites(rec.day, s);
      ghost var w0 := writes;
      WriteAccelerometer(rec, s);
      WriteGyro(rec, s);
      WriteMagnetometer(rec, s);
      writes := writes + [Commit];
      ImuWritesLayout(rec.day, s);
      assert all == all[0..3] + all[3..6] + all[6..9] + [Commit];
      AppendAssoc(w0, all[0..3], all[3..6]);
    }

    /** OpenIMUImporter.py lines 81-84: accelerometer axis `i` stores float `i`. */
    method WriteAccelerometer(rec: Recordset, s: Stream)
      requires Sized(s.values, PayloadSize(Imu))
      modifies this`writes
      ensures writes == old(writes) + ImuWrites(rec.day, s)[0..3]
    {
      ghost var all := ImuWrites(rec.day, s);
      ImuWritesLayout(rec.day, s);
      for i := 0 to 3
        invariant writes == old(writes) + all[0..i]
      {
        assert all[0..i + 1] == all[0..i] + [all[i]];
        writes := writes + [SensorData(rec.day, Accelerometer(i), s.times, Column(s.values, i))];
      }
    }

    /** OpenIMUImporter.py lines 86-89: gyro axis `i` stores float `i + 3`. */
    method WriteGyro(rec: Recordset, s: Stream)
      requires Sized(s.values, PayloadSize(Imu))
      modifies this`writes
      ensures writes == old(writes) + ImuWrites(rec.day, s)[3..6]
    {
      ghost var all := ImuWrites(rec.day, s);
      ImuWritesLayout(rec.day, s);
      for i := 0 to 3
        invariant writes == old(writes) + all[3..3 + i]
      {
        assert all[3..3 + i + 1] == all[3..3 + i] + [all[3 + i]];
        writes := writes + [SensorData(rec.day, Gyro(i), s.times, Column(s.values, i + 3))];
      }
    }

    /** OpenIMUImporter.py lines 91-94: magnetometer axis `i` stores float `i + 6`. */
    method WriteMagnetometer(rec: Recordset, s: Stream)
      requires Sized(s.values, PayloadSize(Imu))
      modifies this`writes
      ensures writes == old(writes) + ImuWrites(rec.day, s)[6..9]
    {
      ghost var all := ImuWrites(rec.day, s);
      ImuWritesLayout(rec.day, s);
      for i := 0 to 3
        invariant writes == old(writes) + all[6..6 + i]
      {
        assert all[6..6 + i + 1] == all[6..6 + i] + [all[6 + i]];
        writes := writes + [SensorData(rec.day, Magnetometer(i), s.times, Column(s.values, i + 6))];
      }
    }

    /** OpenIMUImporter.py lines 101-122: the battery and current rows of one power stream. */
    method ImportPower(rec: Recordset, s: Stream) returns (ok: bool)
      requires Sized(s.values, PayloadSize(Power))
      modifies this`writes
      ensures ok == (|s.values| > 0)
      ensures writes == old(writes) + Part(s, PowerWrites(rec.day, s))
    {
      if |s.values| == 0 {
        return false;
      }
      writes := writes + [SensorData(rec.day, Battery, s.times, Column(s.values, 0))];
      writes := writes + [SensorData(rec.day, Current, s.times, Column(s.values, 1))];
      writes := writes + [Commit];
      return true;
    }

    /** OpenIMUImporter.py lines 125-159: one GPS fix per sample with usable coordinates. */
    method ImportGps(rec: Recordset, s: Stream) returns (ok: bool)
      requires Sized(s.values, PayloadSize(Gps))
      modifies this`writes
      ensures ok == (|s.values| > 0)
      ensures writes == old(writes) + Part(s, GpsFixes(rec.day, s, |s.values|) + [Commit])
    {
      if |s.values| == 0 {
        return false;
      }
      for i := 0 to |s.values|
        invariant writes == old(writes) + GpsFixes(rec.day, s, i)
      {
        var val := s.values[i];
        ghost var fix := GpsFix(rec.day, TimesAt(s.times, i), Field(val, 1), Field(val, 2));
        assert GpsFixes(rec.day, s, i + 1) == GpsFixes(rec.day, s, i) + (if GpsUsable(val) then [fix] else []);
        // a sample whose latitude or longitude is NaN gives no fix
        if !(IsNaN32(Field(val, 1)) || IsNaN32(Field(val, 2))) {
          writes := writes + [fix];
        } else {
          assert GpsFixes(rec.day, s, i + 1) == GpsFixes(rec.day, s, i);
        }
      }
      writes := writes + [Commit];
      return true;
    }

    /** OpenIMUImporter.py lines 162-180: the pressure rows of one barometer stream. */
    method ImportBaro(rec: Recordset, s: Stream) returns (ok: bool)
      requires Sized(s.values, PayloadSize(Baro))
      modifies this`writes
      ensures ok == (|s.values| > 0)
      ensures writes == old(writes) + Part(s, BaroWrites(rec.day, s))
    {
      if |s.values| == 0 {
        return false;
      }
      writes := writes + [SensorData(rec.day, Pressure, s.times, Column(s.values, 1))];
      writes := writes + [Commit];
      return true;
    }

    /**
     * OpenIMUImporter.py lines 289-334: every bucket in key order, then a final commit. The
     * recordsets are only widened or added to.
     */
    method ImportToDatabase(result: Results)
      requires Valid() && Wellformed(result)
      modifies this
      ensures Valid() && Widens(old(recordsets), recordsets)
      ensures recordsets == ImportRecordsets(old(recordsets), result, result.order)
      ensures writes == old(writes) + ImportWrites(result, result.order) + [Commit]
    {
      ImportableKeys(result);
      ImportBuckets(result);
      writes := writes + [Commit];
    }

    /** OpenIMUImporter.py lines 298-331: the buckets of `result`, in key order. */
    method ImportBuckets(result: Results)
      requires Valid()
      requires forall k :: k in result.buckets ==> BucketSized(result.buckets[k])
      requires forall i :: 0 <= i < |result.order| ==> result.order[i] in result.buckets
      modifies this
      ensures Valid() && Widens(old(recordsets), recordsets)
      ensures recordsets == ImportRecordsets(old(recordsets), result, result.order)
      ensures writes == old(writes) + ImportWrites(result, result.order)
    {
      var i := 0;
      while i < |result.order|
        invariant i <= |result.order|
        invariant Valid() && Widens(old(recordsets), recordsets)
        invariant recordsets == ImportRecordsets(old(recordsets), result, result.order[..i])
        invariant writes == old(writes) + ImportWrites(result, result.order[..i])
      {
        var timestamp := result.order[i];
        ghost var before, done := recordsets, ImportWrites(result, result.order[..i]);
        var b := result.buckets[timestamp];
        assert BucketSized(b);
        ghost var more := BucketWrites(b);
        ImportBucket(b);
        WidensTrans(old(recordsets), before, recordsets);
        ImportWritesStep(result, result.order, i);
        ImportRecordsetsStep(old(recordsets), result, result.order, i);
        AppendAssoc(old(writes), done, more);
        i := i + 1;
      }
      assert result.order[..i] == result.order;
    }

    /**
     * OpenIMUImporter.py lines 300-331, one bucket: for each of its four streams the recordset of
     * the stream's day, then the stream's rows.
     */
    method ImportBucket(b: Bucket)
      requires Valid() && BucketSized(b)
      modifies this
      ensures Valid() && Widens(old(recordsets), recordsets)
      ensures recordsets == BucketRecordsets(old(recordsets), b)
      ensures writes == old(writes) + BucketWrites(b)
    {
      assert Sized(b.imu.values, PayloadSize(Imu)) && Sized(b.power.values, PayloadSize(Power));
      assert Sized(b.gps.values, PayloadSize(Gps)) && Sized(b.baro.values, PayloadSize(Baro));
      ghost var r0, w0 := recordsets, writes;
      ghost var a, p, g, o := StreamWrites(Imu, Day(b.imu.startTime), b.imu),
        StreamWrites(Power, Day(b.power.startTime), b.power),
        StreamWrites(Gps, Day(b.gps.startTime), b.gps),
        StreamWrites(Baro, Day(b.baro.startTime), b.baro);
      ImportStream(Imu, b.imu);
      ghost var r1 := recordsets;
      ImportStream(Power, b.power);
      ghost var r2 := recordsets;
      WidensTrans(r0, r1, r2);
      AppendAssoc(w0, a, p);
      ImportStream(Gps, b.gps);
      ghost var r3 := recordsets;
      WidensTrans(r0, r2, r3);
      AppendAssoc(w0, a + p, g);
      ImportStream(Baro, b.baro);
      WidensTrans(r0, r3, recordsets);
      AppendAssoc(w0, a + p + g, o);
      assert BucketWrites(b) == a + p + g + o;
      BucketRecordsetsInOrder(r0, b);
    }

    /**
     * OpenIMUImporter.py lines 300-331, one stream: the recordset of the stream's day, then the
     * rows of the import helper of its kind. The IMU stream's recordset is
     * asked to cover the stream's whole interval, the others only its start.
     */
    method ImportStream(k: Kind, s: Stream)
      requires Valid() && Sized(s.values, PayloadSize(k))
      modifies this
      ensures Valid() && Widens(old(recordsets), recordsets)
      ensures recordsets == StreamRecordsets(old(recordsets), k, s)
      ensures writes == old(writes) + StreamWrites(k, Day(s.startTime), s)
    {
      var j := GetRecordset(s.startTime, if k == Imu then s.endTime else s.startTime);
      ghost var got := recordsets;
      var ok;
      match k
      case Imu =>
        ok := ImportImu(j, s);
        WidensTrans(old(recordsets), got, recordsets);
      case Power => ok := ImportPower(recordsets[j], s);
      case Gps => ok := ImportGps(recordsets[j], s);
      case Baro => ok := ImportBaro(recordsets[j], s);
    }
  }
}
