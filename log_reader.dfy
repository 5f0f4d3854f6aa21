/**
 * `readDataFile`: reads the chunks of a log one after the other and sorts
 * the samples into hour buckets.
 *
 * The reading is specified in two layers. `Frame` (module Wire) splits the
 * bytes into chunks; `Replay` folds the chunks, in file order, into the
 * reader's loop state. `ReadSpec` puts both together with the time
 * generation pass, and the method `ReadDataFile` is proved to compute it.
 * Separate reference functions (`LastTime`, `FirstInHour`, `Attributed`,
 * `LastStamp`, `Hours`) say directly, in terms of the chunk list, what each
 * bucket must hold; `ReplayReference` proves the fold agrees with them.
 */
module LogReader {
  import opened Util
  import opened Wire
  import opened LogResults

  /**
   * The reader's loop state: the most recent timestamp (`current_timestamp`;
   * `timestamp_hour` is its hour key, and is None until the first 't') and
   * the results built so far.
   */
  datatype State = State(cur: Option<int>, res: Results)

  /** The bucket of the current timestamp exists. */
  predicate Tracked(st: State)
  {
    st.cur.Some? ==> HourKey(st.cur.value) in st.res.buckets
  }

  /** One turn of the read loop on a chunk that was read whole (OpenIMUImporter.py lines 382-442). */
  function Apply(st: State, c: Chunk): (st': State)
    requires Tracked(st)
    ensures Tracked(st')
  {
    match c
    case NewStream => st
    case Time(ts) => State(Some(ts), OpenBucket(st.res, ts))
    case Sample(kind, p) =>
      match st.cur
      case None => st
      case Some(ts) => State(st.cur, AddSample(st.res, HourKey(ts), kind, p, ts))
  }

  function Last<T>(xs: seq<T>): T
    requires |xs| > 0
  {
    xs[|xs| - 1]
  }

  function Init<T>(xs: seq<T>): seq<T>
    requires |xs| > 0
  {
    xs[..|xs| - 1]
  }

  /** The loop state after the chunks `cs`, read in order from the start of the file. */
  function Replay(cs: seq<Chunk>): (st: State)
    ensures Tracked(st)
  {
    if cs == [] then State(None, NoResults) else Apply(Replay(Init(cs)), Last(cs))
  }

  lemma ReplaySnoc(cs: seq<Chunk>, c: Chunk)
    ensures Replay(cs + [c]) == Apply(Replay(cs), c)
  {
    assert Init(cs + [c]) == cs;
  }

  /** `struct.unpack` on a payload that the end of the file cut short raises. */
  datatype ReadError = TruncatedChunk(tag: byte, offset: nat)

  /** What `readDataFile` returns for the bytes of a file, or the error it raises. */
  function ReadSpec(data: seq<byte>): Result<Results, ReadError>
  {
    var f := Frame(data);
    FrameConsumes(data);
    if f.stop.Truncated? then Err(TruncatedChunk(f.stop.tag, |data| - |f.rest|))
    else Ok(FillTimes(Replay(f.chunks).res))
  }

  // ---------------------------------------------------------------------------
  // Reference definitions, in terms of the chunk list alone.

  /** The timestamp of the last 't' chunk, if there is one. */
  function LastTime(cs: seq<Chunk>): Option<int>
  {
    if cs == [] then None
    else match Last(cs)
      case Time(ts) => Some(ts)
      case _ => LastTime(Init(cs))
  }

  /** The first timestamp of hour `k`, if there is one. */
  function FirstInHour(cs: seq<Chunk>, k: int): Option<int>
  {
    if cs == [] then None
    else
      var first := FirstInHour(Init(cs), k);
      if first.Some? then first
      else match Last(cs)
        case Time(ts) => if HourKey(ts) == k then Some(ts) else None
        case _ => None
  }

  /** The hours of the file, in the order of their first timestamps. */
  function Hours(cs: seq<Chunk>): seq<int>
  {
    if cs == [] then []
    else match Last(cs)
      case Time(ts) =>
        if FirstInHour(Init(cs), HourKey(ts)).None? then Hours(Init(cs)) + [HourKey(ts)] else Hours(Init(cs))
      case _ => Hours(Init(cs))
  }

  /** A sample chunk `c` of `kind`, read after `before`, belongs to hour `k`. */
  predicate Belongs(before: seq<Chunk>, c: Chunk, k: int, kind: Kind)
  {
    c.Sample? && c.kind == kind && LastTime(before).Some? && HourKey(LastTime(before).value) == k
  }

  /** The payloads of the `kind` samples whose most recent timestamp is in hour `k`, in file order. */
  function Attributed(cs: seq<Chunk>, k: int, kind: Kind): seq<seq<byte>>
  {
    if cs == [] then []
    else Attributed(Init(cs), k, kind) + (if Belongs(Init(cs), Last(cs), k, kind) then [Last(cs).payload] else [])
  }

  /** The most recent timestamp at the last sample of `kind` that belongs to hour `k`. */
  function LastStamp(cs: seq<Chunk>, k: int, kind: Kind): Option<int>
  {
    if cs == [] then None
    else if Belongs(Init(cs), Last(cs), k, kind) then LastTime(Init(cs))
    else LastStamp(Init(cs), k, kind)
  }

  /**
   * The stream of `kind` in the bucket of hour `k`: the attributed samples,
   * the first timestamp of the hour as start, and as end one past the
   * timestamp of the last sample (one past the start when there is none).
   */
  function Expected(cs: seq<Chunk>, k: int, kind: Kind): Stream
    requires FirstInHour(cs, k).Some?
  {
    var start := FirstInHour(cs, k).value;
    var end := match LastStamp(cs, k, kind) case None => start + 1 case Some(t) => t + 1;
    Stream([], Attributed(cs, k, kind), start, end)
  }

  /** Samples are attributed only to hours that have already begun. */
  lemma {:induction false} NothingBeforeHour(cs: seq<Chunk>, k: int, kind: Kind)
    requires FirstInHour(cs, k).None?
    ensures Attributed(cs, k, kind) == [] && LastStamp(cs, k, kind).None?
    ensures LastTime(cs).Some? ==> HourKey(LastTime(cs).value) != k
  {
    if cs != [] {
      NothingBeforeHour(Init(cs), k, kind);
    }
  }

  /**
   * The fold agrees with the reference definitions: the current timestamp is
   * the last one read, the key order is the order of the hours, a bucket
   * exists exactly for the hours that have a timestamp, and each of its
   * streams is `Expected`.
   */
  lemma {:induction false} ReplayReference(cs: seq<Chunk>)
    ensures var st := Replay(cs);
      && st.cur == LastTime(cs)
      && st.res.order == Hours(cs)
      && (forall k :: k in st.res.buckets <==> FirstInHour(cs, k).Some?)
      && (forall k, kind: Kind :: k in st.res.buckets ==> st.res.buckets[k].Get(kind) == Expected(cs, k, kind))
  {
    if cs != [] {
      var init, c := Init(cs), Last(cs);
      ReplayReference(init);
      var st0, st := Replay(init), Replay(cs);
      match c
      case NewStream =>
        forall k, kind: Kind | k in st.res.buckets ensures st.res.buckets[k].Get(kind) == Expected(cs, k, kind) {
          assert st.res.buckets[k].Get(kind) == Expected(init, k, kind);
        }
      case Time(ts) =>
        var h := HourKey(ts);
        forall k, kind: Kind | k in st.res.buckets ensures st.res.buckets[k].Get(kind) == Expected(cs, k, kind) {
          if k == h && h !in st0.res.buckets {
            NothingBeforeHour(init, h, kind);
          } else {
            assert st.res.buckets[k].Get(kind) == Expected(init, k, kind);
          }
        }
      case Sample(kind, p) =>
        forall k, kind': Kind | k in st.res.buckets ensures st.res.buckets[k].Get(kind') == Expected(cs, k, kind') {
          assert st.res.buckets[k].Get(kind') == st0.res.buckets[k].Get(kind') || Belongs(init, c, k, kind');
        }
    }
  }

  /** Samples read before the first 't' chunk are dropped: without timestamps there are no buckets. */
  lemma NoTimeNoBuckets(cs: seq<Chunk>)
    requires forall i :: 0 <= i < |cs| ==> !cs[i].Time?
    ensures Replay(cs).res == NoResults
  {
    if cs != [] {
      assert forall i :: 0 <= i < |Init(cs)| ==> Init(cs)[i] == cs[i];
      NoTimeNoBuckets(Init(cs));
    }
  }

  predicate ValidPayloads(cs: seq<Chunk>)
  {
    forall i :: 0 <= i < |cs| ==> cs[i].Sample? ==> |cs[i].payload| == PayloadSize(cs[i].kind)
  }

  /** The fold builds well-formed results. */
  lemma {:induction false} ReplayWellformed(cs: seq<Chunk>)
    requires ValidPayloads(cs)
    ensures Wellformed(Replay(cs).res)
  {
    if cs != [] {
      var init := Init(cs);
      assert forall i :: 0 <= i < |init| ==> init[i] == cs[i];
      ReplayWellformed(init);
      var st0 := Replay(init);
      match Last(cs)
      case NewStream =>
      case Time(ts) => OpenBucketWellformed(st0.res, ts);
      case Sample(kind, p) =>
        if st0.cur.Some? {
          assert cs[|cs| - 1] == Last(cs);
          AddSampleWellformed(st0.res, st0.cur.value, kind, p);
        }
    }
  }

  /**
   * What `readDataFile` promises: it fails exactly when a payload is cut
   * short; otherwise its result is well formed, every stream has as many
   * times as values, and the values of each stream are its attributed
   * samples in file order.
   */
  lemma ReadSpecMeaning(data: seq<byte>)
    ensures ReadSpec(data).Err? <==> Frame(data).stop.Truncated?
    ensures ReadSpec(data).Ok? ==>
      var r, cs := ReadSpec(data).value, Frame(data).chunks;
      && Wellformed(r) && TimesFilled(r)
      && r.order == Hours(cs)
      && (forall k :: k in r.buckets <==> FirstInHour(cs, k).Some?)
      && (forall k, kind: Kind :: k in r.buckets ==> r.buckets[k].Get(kind).values == Attributed(cs, k, kind))
  {
    var cs := Frame(data).chunks;
    if !Frame(data).stop.Truncated? {
      assert ValidPayloads(cs) by {
        forall i | 0 <= i < |cs| && cs[i].Sample? ensures |cs[i].payload| == PayloadSize(cs[i].kind) {
          assert ValidChunk(cs[i]);
        }
      }
      ReplayWellformed(cs);
      ReplayReference(cs);
      FillTimesWellformed(Replay(cs).res);
    }
  }

  // ---------------------------------------------------------------------------
  // The reader itself.

  /** Reads a whole log, as `readDataFile` does with the file's bytes (OpenIMUImporter.py lines 366-462). */
  method ReadDataFile(data: seq<byte>) returns (r: Result<Results, ReadError>)
    ensures r == ReadSpec(data)
  {
    var pos: nat := 0;
    var cur: Option<int> := None;
    var order: seq<int> := [];
    var buckets: map<int, Bucket> := map[];
    ghost var seen: seq<Chunk> := [];
    while true
      invariant pos <= |data|
      invariant Consumed(data, pos, seen)
      invariant Replay(seen) == State(cur, Results(order, buckets))
      decreases |data| - pos
    {
      if pos == |data| {
        break;  // end of file at a tag boundary
      }
      var next := NextChunk(data, pos);
      match next
      case Unknown(_) =>
        FramedFromConsumed(data, pos, seen);
        StopAt(data, pos, seen);
        break;  // unrecognised chunk
      case Short(tag) =>
        FramedFromConsumed(data, pos, seen);
        StopAt(data, pos, seen);
        return Err(TruncatedChunk(tag, pos));
      case Next(c, size) =>
        cur, order, buckets := Record(cur, order, buckets, c);
        ConsumeStep(data, pos, seen, c, size);
        ReplaySnoc(seen, c);
        seen := seen + [c];
        pos := pos + size;
    }
    FramedFromConsumed(data, pos, seen);
    EndAt(data, pos, seen);
    var filled := GenerateTimes(Results(order, buckets));
    r := Ok(filled);
  }

  /**
   * OpenIMUImporter.py lines 382-442, one turn of the read loop on a chunk read whole: a
   * timestamp opens its hour's bucket if the hour is new and becomes the
   * current one; a sample joins the current bucket, or is dropped before the
   * first timestamp.
   */
  method Record(cur: Option<int>, order: seq<int>, buckets: map<int, Bucket>, c: Chunk)
      returns (cur': Option<int>, order': seq<int>, buckets': map<int, Bucket>)
    requires Tracked(State(cur, Results(order, buckets)))
    ensures State(cur', Results(order', buckets')) == Apply(State(cur, Results(order, buckets)), c)
  {
    cur', order', buckets' := cur, order, buckets;
    match c
    case NewStream =>  // a new log stream; nothing to record
    case Time(ts) =>
      var hour := HourKey(ts);
      if hour !in buckets {
        var s := EmptyStream(ts);
        buckets' := buckets[hour := Bucket(s, s, s, s)];
        order' := order + [hour];
      }
      cur' := Some(ts);
    case Sample(kind, payload) =>
      if cur.Some? {
        var hour := HourKey(cur.value);
        var b := buckets[hour];
        var s := b.Get(kind);
        buckets' := buckets[hour := b.Put(kind, s.(values := s.values + [payload], endTime := cur.value + 1))];
      }
  }

  /**
   * OpenIMUImporter.py lines 374-443, reading one chunk at `pos`: the tag byte, then as many
   * payload bytes as the tag calls for, decoded.
   */
  method NextChunk(data: seq<byte>, pos: nat) returns (r: ChunkRead)
    requires pos < |data|
    ensures r == ReadChunk(data[pos..])
    ensures r.Next? ==> 0 < r.size <= |data| - pos
  {
    var tag := data[pos];
    ghost var here := data[pos..];
    assert here[0] == tag;
    if tag == TagStream {
      return Next(NewStream, 1);
    } else if tag == TagTime {
      if |data| - (pos + 1) < TimeSize {
        return Short(tag);
      }
      assert here[1..1 + TimeSize] == data[pos + 1..pos + 1 + TimeSize];
      var ts := DecodeInt32(data[pos + 1..pos + 1 + TimeSize]);
      return Next(Time(ts), 1 + TimeSize);
    }
    match KindOf(tag)
    case None =>
      return Unknown(tag);
    case Some(kind) =>
      var size := PayloadSize(kind);
      if |data| - (pos + 1) < size {
        return Short(tag);
      }
      assert here[1..1 + size] == data[pos + 1..pos + 1 + size];
      return Next(Sample(kind, data[pos + 1..pos + 1 + size]), 1 + size);
  }

  /** Framing all of `data` gives the chunks `seen`, then what framing from `pos` on gives. */
  ghost predicate FramedUpTo(data: seq<byte>, pos: nat, seen: seq<Chunk>)
    requires pos <= |data|
  {
    var f := Frame(data[pos..]);
    Frame(data) == Framing(seen + f.chunks, f.stop, f.rest)
  }

  /** At a chunk that cannot be read whole, framing stops with the chunks seen so far. */
  lemma StopAt(data: seq<byte>, at: nat, seen: seq<Chunk>)
    requires at < |data| && !ReadChunk(data[at..]).Next?
    requires FramedUpTo(data, at, seen)
    ensures Frame(data).chunks == seen && Frame(data).rest == data[at..]
    ensures ReadChunk(data[at..]).Short? ==> ReadSpec(data) == Err(TruncatedChunk(data[at], at))
    ensures ReadChunk(data[at..]).Unknown? ==> ReadSpec(data) == Ok(FillTimes(Replay(seen).res))
  {
    assert seen + [] == seen;
  }

  /** When the loop has stopped without error, what is left is the time generation pass. */
  lemma EndAt(data: seq<byte>, pos: nat, seen: seq<Chunk>)
    requires pos <= |data|
    requires FramedUpTo(data, pos, seen)
    requires pos == |data| || ReadChunk(data[pos..]).Unknown?
    ensures ReadSpec(data) == Ok(FillTimes(Replay(seen).res))
    ensures Wellformed(Replay(seen).res)
  {
    assert seen + [] == seen;
    assert Frame(data).chunks == seen;
    ReadSpecMeaning(data);
    ReplayWellformed(seen);
  }

  /** The chunks `seen`, read whole, are exactly the first `pos` bytes of `data`. */
  ghost predicate Consumed(data: seq<byte>, pos: nat, seen: seq<Chunk>)
  {
    pos <= |data| && ValidChunks(seen) && Serialize(seen) == data[..pos]
  }

  /** Reading one more chunk whole extends what has been consumed by its bytes. */
  lemma ConsumeStep(data: seq<byte>, pos: nat, seen: seq<Chunk>, c: Chunk, size: nat)
    requires Consumed(data, pos, seen) && pos < |data| && ReadChunk(data[pos..]) == Next(c, size)
    ensures Consumed(data, pos + size, seen + [c])
  {
    var here := data[pos..];
    ReadChunkBytes(here);
    SerializeSnoc(seen, c);
    assert data[..pos + size] == data[..pos] + here[..size];
  }

  /** Framing bytes that begin with whole chunks yields those chunks first. */
  lemma FramedFromConsumed(data: seq<byte>, pos: nat, seen: seq<Chunk>)
    requires Consumed(data, pos, seen)
    ensures FramedUpTo(data, pos, seen)
  {
    assert data == data[..pos] + data[pos..];
    FrameSerialize(seen, data[pos..]);
  }

  /** OpenIMUImporter.py lines 450-459: gives every stream of every bucket its generated times. */
  method GenerateTimes(res: Results) returns (r: Results)
    requires KeyOrder(res)
    ensures r == FillTimes(res)
  {
    var buckets := res.buckets;
    var i := 0;
    while i < |res.order|
      invariant i <= |res.order|
      invariant buckets.Keys == res.buckets.Keys
      invariant forall k :: k in buckets ==> buckets[k] == if k in res.order[..i] then FillBucket(res.buckets[k]) else res.buckets[k]
    {
      var hour := res.order[i];
      DistinctNext(res.order, i);
      var b := FillBucketTimes(buckets[hour]);
      buckets := buckets[hour := b];
      i := i + 1;
    }
    assert res.order[..i] == res.order;
    FillTimesPointwise(res, buckets);
    r := Results(res.order, buckets);
  }

  /** The next key of a distinct order is not among the keys before it. */
  lemma DistinctNext(xs: seq<int>, i: nat)
    requires Distinct(xs) && i < |xs|
    ensures xs[i] !in xs[..i] && xs[..i + 1] == xs[..i] + [xs[i]]
  {
  }

  /** Results whose every bucket is the filled original are the filled results. */
  lemma FillTimesPointwise(res: Results, buckets: map<int, Bucket>)
    requires buckets.Keys == res.buckets.Keys
    requires forall k :: k in buckets ==> buckets[k] == FillBucket(res.buckets[k])
    ensures Results(res.order, buckets) == FillTimes(res)
  {
    var filled := FillTimes(res);
    assert filled.buckets.Keys == buckets.Keys;
    assert forall k :: k in buckets ==> filled.buckets[k] == buckets[k];
    assert filled.buckets == buckets;
  }

  /** The inner loop of the time generation: the four streams of one bucket. */
  method FillBucketTimes(b: Bucket) returns (r: Bucket)
    ensures r == FillBucket(b)
  {
    var kinds := [Gps, Power, Imu, Baro];
    r := b;
    var j := 0;
    while j < |kinds|
      invariant j <= |kinds|
      invariant forall m :: 0 <= m < |kinds| ==> r.Get(kinds[m]) == if m < j then FillStream(b.Get(kinds[m])) else b.Get(kinds[m])
    {
      var s := r.Get(kinds[j]);
      r := r.Put(kinds[j], s.(times := Linspace(s.startTime, s.endTime, |s.values|)));
      j := j + 1;
    }
    assert r == Bucket(r.Get(kinds[0]), r.Get(kinds[1]), r.Get(kinds[2]), r.Get(kinds[3]));
  }
}
