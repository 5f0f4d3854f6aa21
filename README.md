# OpenIMU log import and input nodes, in Dafny

This project models two parts of OpenIMU, a tool that records and analyses
data from wearable inertial measurement units:

- **The OpenIMU log importer** (`OpenIMUImporter`). A log is a byte stream
  of tagged chunks:
  - `h` starts a new stream;
  - `t` carries a 32-bit timestamp;
  - `i`, `g`, `p` and `b` carry one IMU, GPS, power or barometer sample.

  `readDataFile` splits the log into chunks and files every sample into
  the bucket of the hour of the most recent timestamp. Each bucket holds
  four streams, and each stream gets evenly spaced sample times.
  `import_to_database` then hands each stream to the database. It first
  finds or creates the recordset of the stream's calendar day, and widens
  that recordset when needed.
- **`InputNode`**. This is a cell of a processing block. It stores the last
  value put into it, and on every put it notifies its observer with its id.

Files:

- `util.dfy`: bytes, `Option`, `Result`, `Min` and `Max`.
- `wire.dfy`: the chunk format. It defines the tag bytes, payload sizes and
  the int32 timestamp codec. It also defines `ReadChunk` and `Frame`, which
  split a log into chunks, and `Serialize`, their inverse.
- `log_results.dfy`: what `readDataFile` builds:
  - streams, buckets and the dictionary of buckets, with its insertion
    order;
  - the hour key;
  - bucket opening, sample appending and time generation;
  - the shape invariant `Wellformed` that these operations keep.
- `log_reader.dfy`:
  - `Replay`, a left fold of the chunk list that gives the meaning of
    `readDataFile`;
  - reference definitions of each bucket's contents in terms of the chunk
    list alone, and the lemma tying the fold to them;
  - the imperative reader `ReadDataFile`, proved equal to the fold.
- `importer.dfy`: the importer class. Its list of recordsets is a sequence
  of values; `Lookup` is the find-or-create of `get_recordset` on that
  list. The database is a ghost log of the rows and commits the importer
  would send.
- `input_node.dfy`: `InputNode` and the observer it notifies.

Payloads are kept as bytes. The model never decodes floats. Timestamps
and the hour keys come from the decoded int32. Byte order and struct
sizes are those of a little-endian platform with native alignment:

| format | size in bytes |
|---|---|
| `i` | 4 |
| `9f` | 36 |
| `?3f` | 16 |
| `2f` | 8 |

## Model

| member | source | states |
|---|---|---|
| Wire.KindOf | python/libopenimu/importers/OpenIMUImporter.py:412-446 | a sample tag names exactly one kind; any other byte names none |
| Wire.KindOfTag | python/libopenimu/importers/OpenIMUImporter.py:412-446 | every kind's tag is recognised as that kind and differs from `h` and `t` |
| Wire.PayloadSize | python/libopenimu/importers/OpenIMUImporter.py:414-438 | the number of payload bytes each sample tag's read takes: 36 for `i`, 16 for `g`, 8 for `p` and `b` |
| Wire.PayloadSizeCalcsize | python/libopenimu/importers/OpenIMUImporter.py:336-364 | each payload size is the native `struct.calcsize` of the kind's unpack format, computed by an independent definition of native alignment (each item aligned to its own size, no trailing padding) |
| Wire.FloatOffsets | python/libopenimu/importers/OpenIMUImporter.py:336-364 | with native alignment every float of a sample format sits at byte `4 * c`, the GPS flag byte being item 0 and padded to 4 bytes |
| Wire.TimeSizeCalcsize | python/libopenimu/importers/OpenIMUImporter.py:342-346 | the timestamp payload is the size of one native `i` |
| Wire.DecodeInt32 | python/libopenimu/importers/OpenIMUImporter.py:342-346 | `unpack("i")` of four bytes yields a 32-bit signed value, negative exactly when the sign bit of the last byte is set |
| Wire.DecodeEncodeInt32 | python/libopenimu/importers/OpenIMUImporter.py:342-346 | decoding the encoding of any int32 gives it back |
| Wire.EncodeDecodeInt32 | python/libopenimu/importers/OpenIMUImporter.py:342-346 | encoding the decoding of any four bytes gives them back |
| Wire.ReadChunk | python/libopenimu/importers/OpenIMUImporter.py:374-446 | one read step: `h` takes no payload, `t` takes 4 bytes, each sample its kind's payload size; an unlisted tag is unknown; a payload cut short is reported with its tag; the chunk read is well formed and its encoding is as long as the bytes consumed |
| Wire.ReadChunkBytes | python/libopenimu/importers/OpenIMUImporter.py:374-446 | the bytes a read step consumes are exactly the encoding of the chunk it returns |
| Wire.SerializeSnoc | python/libopenimu/importers/OpenIMUImporter.py:372-446 | the bytes of one more chunk follow the bytes of the chunks before it |
| Wire.Frame | python/libopenimu/importers/OpenIMUImporter.py:372-446 | the read loop as a function of the bytes: the chunks read in order, with every chunk well formed, the reason the loop stopped and the unread rest |
| Wire.FrameConsumes | python/libopenimu/importers/OpenIMUImporter.py:372-446 | the chunks read plus the unread rest are the whole input; the end of input at a tag boundary ends with nothing left; an unknown or truncated stop is at the chunk that caused it |
| Wire.FrameSerialize | python/libopenimu/importers/OpenIMUImporter.py:372-446 | reading the bytes of chunks followed by any tail yields those chunks and then whatever the tail yields |
| Wire.FrameRoundTrip | python/libopenimu/importers/OpenIMUImporter.py:372-446 | reading a serialised chunk list yields that list and ends normally |
| LogResults.HourKey | python/libopenimu/importers/OpenIMUImporter.py:390 | the bucket key of a timestamp is a multiple of 3600 with `k <= ts < k + 3600` |
| LogResults.HourKeyUnique | python/libopenimu/importers/OpenIMUImporter.py:390 | that key is the only multiple of 3600 with this property |
| LogResults.SameHour | python/libopenimu/importers/OpenIMUImporter.py:390-393 | two timestamps share a key exactly when the second lies in the first's hour |
| LogResults.OpenBucket | python/libopenimu/importers/OpenIMUImporter.py:392-410 | the first timestamp of an hour appends the key and a bucket of four empty streams from `ts` to `ts + 1`; a later one changes nothing |
| LogResults.AddSample | python/libopenimu/importers/OpenIMUImporter.py:412-442 | a sample is appended to its kind's stream in the current bucket, whose end becomes the current timestamp plus one; nothing else changes |
| LogResults.Linspace | python/libopenimu/importers/OpenIMUImporter.py:453-456 | `np.linspace(start, end, num, endpoint=False)`, computed exactly: `num` points from `start` with step `(end - start) / num` |
| LogResults.PointsAt | python/libopenimu/importers/OpenIMUImporter.py:453-456 | point `k` of the spaced sequence is `start + k * step` |
| LogResults.LinspaceBounds | python/libopenimu/importers/OpenIMUImporter.py:453-456 | when `start < end`, `linspace(start, end, n, endpoint=False)` starts at `start`, strictly increases and stays below `end` |
| LogResults.FillStream | python/libopenimu/importers/OpenIMUImporter.py:453-458 | a stream keeps its values and bounds and gets exactly as many times as values |
| LogResults.FillBucket | python/libopenimu/importers/OpenIMUImporter.py:451-458 | each of a bucket's four streams is given its times |
| LogResults.FillTimes | python/libopenimu/importers/OpenIMUImporter.py:450-459 | time generation keeps keys, order, values and bounds, and gives every stream its spaced times |
| LogResults.OpenBucketWellformed | python/libopenimu/importers/OpenIMUImporter.py:392-410 | opening a bucket keeps the result well formed: distinct ordered keys, hour-aligned keys, payloads of the right size, streams inside their hour and sharing a start |
| LogResults.AddSampleWellformed | python/libopenimu/importers/OpenIMUImporter.py:412-442 | appending a sample of the right size keeps the result well formed |
| LogResults.FillTimesWellformed | python/libopenimu/importers/OpenIMUImporter.py:450-459 | after time generation the result is still well formed and every stream has as many times as values |
| LogReader.Apply | python/libopenimu/importers/OpenIMUImporter.py:382-442 | one turn of the read loop on a chunk read whole: `h` changes nothing, `t` makes its timestamp current and opens its hour, a sample is added under the current timestamp or dropped without one; the current timestamp always has its bucket |
| LogReader.Replay | python/libopenimu/importers/OpenIMUImporter.py:366-446 | the loop state after a list of chunks, the fold of `Apply` from no timestamp and no buckets; the current timestamp always has its bucket |
| LogReader.ReadSpec | python/libopenimu/importers/OpenIMUImporter.py:366-462 | what `readDataFile` returns, or the error it raises when a payload is cut short, reported by the model as `TruncatedChunk(tag, offset)`; otherwise the fold of the chunks read, with times generated |
| LogReader.NothingBeforeHour | python/libopenimu/importers/OpenIMUImporter.py:416-442 | no sample is attributed to an hour before its first timestamp |
| LogReader.ReplayReference | python/libopenimu/importers/OpenIMUImporter.py:366-446 | the read loop's state: the current timestamp is the last one read; the keys are the hours in order of first appearance; a bucket exists exactly for hours with a timestamp; each stream holds exactly the samples whose latest timestamp is in its hour, starts at the hour's first timestamp and ends one past its last sample's timestamp |
| LogReader.NoTimeNoBuckets | python/libopenimu/importers/OpenIMUImporter.py:416-442 | samples read before any timestamp are dropped |
| LogReader.ReplayWellformed | python/libopenimu/importers/OpenIMUImporter.py:366-446 | the read loop keeps its result well formed |
| LogReader.ReadSpecMeaning | python/libopenimu/importers/OpenIMUImporter.py:366-462 | reading fails exactly on a truncated payload; otherwise the result is well formed with times filled, keys as above and every stream's values the samples attributed to it |
| LogReader.ReadDataFile | python/libopenimu/importers/OpenIMUImporter.py:366-462 | the imperative reader returns exactly the fold's result, with the tag and offset of a truncated chunk on failure |
| LogReader.NextChunk | python/libopenimu/importers/OpenIMUImporter.py:374-443 | the read step at offset `pos` reads the chunk at the rest of the input, and a chunk read moves the offset forward within the input |
| LogReader.Record | python/libopenimu/importers/OpenIMUImporter.py:382-442 | the loop body's update of the current timestamp, key order and buckets is one step of the fold |
| LogReader.ConsumeStep | python/libopenimu/importers/OpenIMUImporter.py:366-446 | after a chunk read, the chunks read so far still serialise to exactly the bytes before the new offset |
| LogReader.GenerateTimes | python/libopenimu/importers/OpenIMUImporter.py:450-459 | the time-generation loop over all buckets computes `FillTimes` |
| LogReader.FillBucketTimes | python/libopenimu/importers/OpenIMUImporter.py:451-459 | the inner loop over a bucket's four streams computes `FillBucket` |
| Importer.Day | python/libopenimu/importers/OpenIMUImporter.py:31-36 | the date of a timestamp as a day number: the timestamp lies within that day |
| Importer.DayOfHour | python/libopenimu/importers/OpenIMUImporter.py:30-37 | a timestamp and its hour's key fall on the same date |
| Importer.Field | python/libopenimu/importers/OpenIMUImporter.py:84-94 | the four bytes of float `c` of a payload, at byte `4 * c` |
| Importer.Column | python/libopenimu/importers/OpenIMUImporter.py:84-94 | `values[:, c]`: float `c` of every sample, one per sample, in sample order |
| Importer.ImuColumn | python/libopenimu/importers/OpenIMUImporter.py:81-94 | the payload float that an IMU channel stores; for the nine channels it is that channel's position in the write order |
| Importer.ImuWrites | python/libopenimu/importers/OpenIMUImporter.py:81-96 | the nine IMU rows in channel order, then a commit |
| Importer.ImuWritesLayout | python/libopenimu/importers/OpenIMUImporter.py:81-96 | accelerometer axis `i` stores float `i`, gyro axis `i` float `i + 3`, magnetometer axis `i` float `i + 6`, then one commit |
| Importer.PowerWrites | python/libopenimu/importers/OpenIMUImporter.py:114-120 | the battery and current rows of a power stream, then a commit |
| Importer.BaroWrites | python/libopenimu/importers/OpenIMUImporter.py:174-177 | the pressure row of a barometer stream, then a commit |
| Importer.IsNaN32 | python/libopenimu/importers/OpenIMUImporter.py:141 | `math.isnan` on a float32 given by its four little-endian bytes: all exponent bits set and a non-zero fraction |
| Importer.IsNaN32Bits | python/libopenimu/importers/OpenIMUImporter.py:141 | the test on the bytes agrees with the float32 NaN test on the 32-bit word: exponent `0xff` and fraction not zero |
| Importer.GpsUsable | python/libopenimu/importers/OpenIMUImporter.py:141 | a GPS sample is kept exactly when neither its latitude (float 1) nor its longitude (float 2) is NaN |
| Importer.TimesAt | python/libopenimu/importers/OpenIMUImporter.py:150 | `times[i:i+1]`: the one time of sample `i`, or nothing past the end |
| Importer.FixOf | python/libopenimu/importers/OpenIMUImporter.py:144-152 | the fix a GPS sample gives: its own time, latitude from float 1, longitude from float 2, on the recordset's day |
| Importer.GpsFixes | python/libopenimu/importers/OpenIMUImporter.py:137-154 | at most one fix per sample, each on the recordset's day, with latitude and longitude that are not NaN |
| Importer.UsableIndices | python/libopenimu/importers/OpenIMUImporter.py:137-142 | the positions of the samples the NaN test keeps: strictly increasing, each usable, and every usable sample among them |
| Importer.GpsFixesExact | python/libopenimu/importers/OpenIMUImporter.py:137-154 | the fixes are exactly `FixOf` of the usable samples, one each and in sample order |
| Importer.GpsFixesComplete | python/libopenimu/importers/OpenIMUImporter.py:137-154 | every sample whose latitude and longitude are both numbers yields its fix |
| Importer.StreamWrites | python/libopenimu/importers/OpenIMUImporter.py:62-180 | what the import helper of each kind writes for one stream: nothing for a stream without samples |
| Importer.BucketWrites | python/libopenimu/importers/OpenIMUImporter.py:300-331 | the rows of a bucket's IMU, power, GPS and barometer streams, in that order, each on the date of its stream's start |
| Importer.ImportWrites | python/libopenimu/importers/OpenIMUImporter.py:298-331 | the rows of the buckets of the given keys, in key order |
| Importer.StreamWritesDay | python/libopenimu/importers/OpenIMUImporter.py:62-180 | every row an import helper writes is on the day of the recordset it was given |
| Importer.BucketWritesDay | python/libopenimu/importers/OpenIMUImporter.py:300-331 | every row of a bucket of a well-formed result is on the date of the bucket's hour |
| Importer.ImportWritesAppend | python/libopenimu/importers/OpenIMUImporter.py:299-331 | importing the keys `a + c` writes what importing `a` and then `c` writes |
| Importer.ImportWritesDays | python/libopenimu/importers/OpenIMUImporter.py:299-331 | every row written for a well-formed result is on the date of one of its hours |
| Importer.FindDay | python/libopenimu/importers/OpenIMUImporter.py:35-37 | the position of the first recordset whose start has the given date; none when no recordset has it |
| Importer.Lookup | python/libopenimu/importers/OpenIMUImporter.py:30-48 | the returned recordset has `start`'s date and covers `start`..`end`; the others are unchanged; at most one is appended, a new one of exactly `start`..`end` is appended exactly when no recordset has that date; no recordset shrinks or changes date; distinct dates stay distinct |
| Importer.LookupWidensOnlyAsNeeded | python/libopenimu/importers/OpenIMUImporter.py:39-42 | a matching recordset's start is lowered only when `start` is earlier, and its end raised only when `end` is later |
| Importer.StreamRecordsets | python/libopenimu/importers/OpenIMUImporter.py:300-331 | the recordsets after one stream: the lookup of its start and requested end (its end for IMU, its start otherwise), then for a non-empty IMU stream the end of the recordset found raised to the stream's end |
| Importer.BucketRecordsets | python/libopenimu/importers/OpenIMUImporter.py:300-331 | the recordsets after a bucket's four `get_recordset` calls; their order is `BucketRecordsetsInOrder` and their meaning `BucketRecordsetsFacts` |
| Importer.BucketRecordsetsInOrder | python/libopenimu/importers/OpenIMUImporter.py:300-331 | a bucket's streams reach the recordsets in the order IMU, power, GPS, barometer |
| Importer.ImportRecordsets | python/libopenimu/importers/OpenIMUImporter.py:298-331 | the recordsets after the buckets of the given keys, in key order |
| Importer.StreamRecordsetsFacts | python/libopenimu/importers/OpenIMUImporter.py:62-74 | one stream keeps dates distinct, only widens, covers the stream, and adds at most one recordset, named after the date of the stream's start; for IMU the end raise adds nothing beyond the lookup |
| Importer.StreamsRecordsetsFacts | python/libopenimu/importers/OpenIMUImporter.py:300-331 | streams that start on one date only widen, are each covered, and add recordsets of that date only |
| Importer.BucketRecordsetsFacts | python/libopenimu/importers/OpenIMUImporter.py:300-331 | a bucket whose streams start on its hour's date covers each of its four streams and adds recordsets of that date only |
| Importer.WellformedDated | python/libopenimu/importers/OpenIMUImporter.py:390-410 | every stream of a bucket starts on the date of the bucket's hour |
| Importer.ImportRecordsetsFacts | python/libopenimu/importers/OpenIMUImporter.py:298-331 | over any keys: dates stay distinct, existing recordsets are only widened, every stream is covered, and every new recordset has the date of one of the keys |
| Importer.ImportGroupsByDay | python/libopenimu/importers/OpenIMUImporter.py:288-334 | after importing a well-formed result each date has at most one recordset, every stream of every hour is covered by the recordset of the hour's date (IMU over its whole interval, the others at their start), old recordsets were only widened, and each new recordset has the date of one of the hours |
| Importer.OpenImuImporter.constructor | python/libopenimu/importers/OpenIMUImporter.py:24-28 | a new importer has no recordsets and has written nothing |
| Importer.OpenImuImporter.GetRecordset | python/libopenimu/importers/OpenIMUImporter.py:30-48 | the loop over the recordsets leaves the list, and returns the position, that `Lookup` gives; dates stay distinct; nothing is written |
| Importer.OpenImuImporter.ImportImu | python/libopenimu/importers/OpenIMUImporter.py:62-98 | false and no writes for an empty stream; otherwise the nine IMU columns and a commit, with the given recordset's end raised to the stream's end only if later and every other recordset unchanged |
| Importer.OpenImuImporter.WriteImuChannels | python/libopenimu/importers/OpenIMUImporter.py:81-96 | the three channel loops and the commit write exactly the IMU layout |
| Importer.OpenImuImporter.WriteAccelerometer | python/libopenimu/importers/OpenIMUImporter.py:81-84 | the accelerometer loop writes the first three IMU rows, axis `i` from float `i` |
| Importer.OpenImuImporter.WriteGyro | python/libopenimu/importers/OpenIMUImporter.py:86-89 | the gyro loop writes the next three IMU rows, axis `i` from float `i + 3` |
| Importer.OpenImuImporter.WriteMagnetometer | python/libopenimu/importers/OpenIMUImporter.py:91-94 | the magnetometer loop writes the last three IMU rows, axis `i` from float `i + 6` |
| Importer.OpenImuImporter.ImportPower | python/libopenimu/importers/OpenIMUImporter.py:101-122 | false and no writes for an empty stream; otherwise battery from float 0, current from float 1, then a commit |
| Importer.OpenImuImporter.ImportGps | python/libopenimu/importers/OpenIMUImporter.py:125-159 | false and no writes for an empty stream; otherwise one fix per sample with non-NaN coordinates, in order, then a commit |
| Importer.OpenImuImporter.ImportBaro | python/libopenimu/importers/OpenIMUImporter.py:162-180 | false and no writes for an empty stream; otherwise the pressure from float 1, then a commit |
| Importer.OpenImuImporter.ImportStream | python/libopenimu/importers/OpenIMUImporter.py:300-331 | leaves exactly the recordsets `StreamRecordsets` gives (the lookup of the stream's interval for IMU, its start alone otherwise, then the IMU end raise) and writes its helper's rows; recordsets are only widened or added |
| Importer.OpenImuImporter.ImportBucket | python/libopenimu/importers/OpenIMUImporter.py:300-331 | the four stream lookups in the order IMU, power, GPS, barometer (`BucketRecordsets`), and the four streams' rows in that order |
| Importer.OpenImuImporter.ImportBuckets | python/libopenimu/importers/OpenIMUImporter.py:299-331 | every bucket in key order: the recordsets `ImportRecordsets` gives and the rows `ImportWrites` gives; recordsets are only widened or added |
| Importer.OpenImuImporter.ImportToDatabase | python/libopenimu/importers/OpenIMUImporter.py:288-334 | leaves the recordsets `ImportRecordsets` gives for the result's keys, in order (what they cover is `ImportGroupsByDay`), and writes every bucket's rows in key order followed by a final commit; dates stay distinct and existing recordsets are only widened |
| InputNodes.Observer.Notify | application_openimu/models/components/inputnode.cpp:22-25 | the observer receives the id, once |
| InputNodes.InputNode.Put | application_openimu/models/components/inputnode.cpp:3-6 | stores the value, keeps the id, and notifies the observer exactly once with the current id |
| InputNodes.InputNode.Get | application_openimu/models/components/inputnode.cpp:8-10 | returns the stored value and changes nothing |
| InputNodes.InputNode.SetStringID | application_openimu/models/components/inputnode.cpp:12-15 | replaces the id, keeps the value and sends no notification |
| InputNodes.InputNode.GetStringID | application_openimu/models/components/inputnode.cpp:17-20 | returns the id and changes nothing |
| InputNodes.InputNode.Notify | application_openimu/models/components/inputnode.cpp:22-25 | passes the current id to the observer, once |
| InputNodes.PutGetRoundTrip | application_openimu/models/components/inputnode.cpp:3-20 | after `Put(v)` `Get` returns `v`, after `SetStringID(s)` `GetStringID` returns `s`, and only the put notifies |

## Left out

- Float decoding (`struct.unpack` of `f`, `np.float32`). Payloads stay byte
  sequences. IMU, power and barometer columns are the 4-byte fields at
  offset `4 * c`. A GPS payload keeps its leading flag byte and three
  padding bytes.
- The GPS `* 1e7` scaling of latitude and longitude
  (`OpenIMUImporter.py:144-145`). A fix carries the raw float bytes. The
  NaN test is made on the float32 bit pattern.
- Float64 rounding in `np.linspace` and `np.floor`. Times are exact reals,
  and hour keys are exact integers rather than numpy floats.
- `datetime.fromtimestamp`'s local time zone. A date is the UTC day number
  `ts / 86400`. `DayOfHour`, and with it `WellformedDated`,
  `BucketWritesDay`, `ImportWritesDays` and the statement of
  `ImportGroupsByDay` that every stream starts on the date of its hour,
  relies on a day being a whole number of hours aligned with the hour keys.
  In a zone whose offset is not a whole hour (UTC+5:30, UTC+9:30) one hour
  bucket can cross local midnight, and these facts do not hold.
- The database itself (`add_recordset`, `add_sensor_to_db`,
  `add_channel_to_db`, `add_sensor_data_to_db`, `commit`), which belongs to
  `BaseImporter` and `DBManager`; those are not part of this model. Rows and
  commits are entries of a ghost log. `add_recordset` yields a new
  `Recordset` value.
- `create_sensor_and_channels` (`OpenIMUImporter.py:182-286`). Sensors and
  channels are the symbolic `Channel` values. The sensor and channel rows it
  adds and its own commit (`OpenIMUImporter.py:267`) are not in the ghost log. The model assumes the fixed
  three accelerometer, gyro and magnetometer channels that the function
  creates.
- Object identity of recordsets. The importer's list holds recordset
  values, and `GetRecordset` returns a position in it. `import_imu_to_database`
  raises the end of the listed record through the reference it is given;
  the model updates the entry at the returned position instead, which has
  the same effect on the list, but does not model other references to the
  record objects.
- `SensorTimestamps` and its `update_timestamps`: a row carries the times
  sequence itself.
- The exception of a truncated read. `struct.unpack` raises `struct.error`
  and `readDataFile` lets it propagate; the model returns it as an `Err`
  value instead. The tag and offset in `TruncatedChunk` are the model's
  additions: the exception carries neither.
- `load`, file opening, `print`, the `debug` flag and the `@timing`
  decorator. `readDataFile` takes the file's bytes as a sequence.
- The `__contains__` tests of `import_to_database`. Every bucket
  `readDataFile` builds has all four streams, so the tests always succeed.
- InputNodes.InputNode.Notify: what the `Observer` does with a
  notification. `inputnode.h` and the observer's class are not part of this
  model. The observer only records ids in a ghost log. `Put` and `Notify`
  require a non-null observer, because the source dereferences it.
- The constructor of `InputNode`, which `inputnode.cpp` does not show. The
  model's constructor takes the observer, id and value as parameters.
- The Qt translation catalogue and the records dialog declaration: they are
  data and widget declarations with no logic to model.
