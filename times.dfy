/**
 * TimelineTimes: the timestamps of one timeline interval, their fixed-width
 * byte representation (one big-endian 4-byte unix-seconds integer per
 * timestamp, the default order of java.nio.ByteBuffer) and the conversions
 * between unix seconds and instants.
 */
module Times {
  import opened Base

  /** A Joda instant, reduced to what the read path uses: milliseconds since the epoch (UTC). */
  datatype DateTime = DateTime(millis: int64)

  /** `dateTimeFromUnixSeconds`: widen to long, then scale to milliseconds. */
  function DateTimeFromUnixSeconds(unixTime: int32): (d: DateTime)
    ensures d.millis == unixTime * 1000
  {
    DateTime(unixTime * 1000)
  }

  /** `unixSeconds`: long division by 1000 (rounding toward zero), then a narrowing cast to int. */
  function UnixSeconds(d: DateTime): int32
  {
    Wrap32(JavaDiv(d.millis, 1000))
  }

  /** Every int survives the trip through an instant and back. */
  lemma UnixSecondsRoundTrip(s: int32)
    ensures UnixSeconds(DateTimeFromUnixSeconds(s)) == s
  {
    var m: int := s as int * 1000;
    if s >= 0 {
      assert m / 1000 == s as int;
    } else {
      assert (-m) / 1000 == -(s as int);
    }
  }

  /** An instant inside the int range of seconds loses only its sub-second part on the way to unix seconds. */
  lemma UnixSecondsTruncates(d: DateTime)
    requires -0x8000_0000 * 1000 < d.millis < 0x8000_0000 * 1000
    ensures d.millis >= 0 ==> 0 <= d.millis - UnixSeconds(d) * 1000 < 1000
    ensures d.millis < 0 ==> 0 <= UnixSeconds(d) * 1000 - d.millis < 1000
  {
    var q := JavaDiv(d.millis, 1000);
    assert -0x8000_0000 <= q < 0x8000_0000;
  }

  // ---------------------------------------------------------------------
  // The 4-byte big-endian codec of java.nio.IntBuffer over a ByteBuffer

  /** The four bytes, most significant first, of an int's two's-complement representation. */
  function BigEndian(x: int32): (b: seq<uint8>)
    ensures |b| == 4
  {
    var u := x % TWO_32;
    [u / 0x100_0000, (u / 0x1_0000) % 0x100, (u / 0x100) % 0x100, u % 0x100]
  }

  /** Reading four bytes, most significant first, as a signed int. */
  function FromBigEndian(b: seq<uint8>): int32
    requires |b| == 4
  {
    var u := b[0] as int * 0x100_0000 + b[1] as int * 0x1_0000 + b[2] as int * 0x100 + b[3] as int;
    if u >= 0x8000_0000 then u - TWO_32 else u
  }

  lemma BigEndianRoundTrip(x: int32)
    ensures FromBigEndian(BigEndian(x)) == x
  {
    var u := x % TWO_32;
    var b := BigEndian(x);
    assert u == b[0] * 0x100_0000 + (u % 0x100_0000);
    assert u % 0x100_0000 == b[1] * 0x1_0000 + (u % 0x1_0000);
    assert u % 0x1_0000 == b[2] * 0x100 + b[3];
  }

  /** `IntBuffer.put(int[])` on a fresh buffer: the big-endian bytes of each int, in order. */
  function Encode(xs: seq<int32>): (b: seq<uint8>)
    ensures |b| == 4 * |xs|
  {
    if xs == [] then [] else Encode(xs[..|xs| - 1]) + BigEndian(xs[|xs| - 1])
  }

  /** Entry `i` of the encoding sits at bytes `4i .. 4i+4`. */
  lemma {:induction false} EncodeAt(xs: seq<int32>, i: nat)
    requires i < |xs|
    ensures Encode(xs)[4 * i .. 4 * i + 4] == BigEndian(xs[i])
    decreases |xs|
  {
    var init := xs[..|xs| - 1];
    if i < |xs| - 1 {
      EncodeAt(init, i);
      assert Encode(xs)[4 * i .. 4 * i + 4] == Encode(init)[4 * i .. 4 * i + 4];
    }
  }

  /** `IntBuffer.get(i)` over a wrapped byte array: the int in bytes `4i .. 4i+4`. */
  function IntAt(bytes: seq<uint8>, i: nat): int32
    requires 4 * i + 4 <= |bytes|
  {
    FromBigEndian(bytes[4 * i .. 4 * i + 4])
  }

  /** The first `count` ints of a byte array. */
  function Decode(bytes: seq<uint8>, count: nat): (xs: seq<int32>)
    requires 4 * count <= |bytes|
    ensures |xs| == count
  {
    seq(count, i requires 0 <= i < count => IntAt(bytes, i))
  }

  /** Decoding an encoding with its own count gives back the ints. */
  lemma DecodeEncode(xs: seq<int32>)
    ensures Decode(Encode(xs), |xs|) == xs
  {
    forall i | 0 <= i < |xs|
      ensures Decode(Encode(xs), |xs|)[i] == xs[i]
    {
      EncodeAt(xs, i);
      BigEndianRoundTrip(xs[i]);
    }
  }

  /** The unix seconds of every timestamp, in order. */
  function UnixTimes(times: seq<DateTime>): (us: seq<int32>)
    ensures |us| == |times| && forall i :: 0 <= i < |times| ==> us[i] == UnixSeconds(times[i])
  {
    seq(|times|, i requires 0 <= i < |times| => UnixSeconds(times[i]))
  }

  /** What `getTimeArray` returns for a list of timestamps. */
  function TimeArray(times: seq<DateTime>): (b: seq<uint8>)
    ensures |b| == 4 * |times|
  {
    Encode(UnixTimes(times))
  }

  /** Entry `i` of the time array is the big-endian encoding of the unix seconds of timestamp `i`. */
  lemma TimeArrayAt(times: seq<DateTime>, i: nat)
    requires i < |times|
    ensures TimeArray(times)[4 * i .. 4 * i + 4] == BigEndian(UnixSeconds(times[i]))
  {
    EncodeAt(UnixTimes(times), i);
  }

  /** What the byte-array constructor stores: the first `count` ints read back as instants. */
  function DecodeTimes(bytes: seq<uint8>, count: nat): (ts: seq<DateTime>)
    requires 4 * count <= |bytes|
    ensures |ts| == count
  {
    seq(count, i requires 0 <= i < count => DateTimeFromUnixSeconds(IntAt(bytes, i)))
  }

  /** The time array holds exactly four bytes per timestamp, and reading it back yields the same unix seconds. */
  lemma TimeArrayRoundTrip(times: seq<DateTime>)
    ensures |TimeArray(times)| == 4 * |times|
    ensures UnixTimes(DecodeTimes(TimeArray(times), |times|)) == UnixTimes(times)
  {
    var us := UnixTimes(times);
    DecodeEncode(us);
    var back := DecodeTimes(TimeArray(times), |times|);
    forall i | 0 <= i < |times|
      ensures UnixSeconds(back[i]) == UnixSeconds(times[i])
    {
      assert back[i] == DateTimeFromUnixSeconds(Decode(Encode(us), |us|)[i]);
      UnixSecondsRoundTrip(us[i]);
    }
  }

  class TimelineTimes {
    const timelineIntervalId: int64
    const hostId: int32
    const startTime: DateTime
    const endTime: DateTime
    const times: seq<DateTime>

    /** The list constructor: stores its arguments. */
    constructor (timelineIntervalId: int64, hostId: int32, startTime: DateTime, endTime: DateTime, times: seq<DateTime>)
      ensures this.timelineIntervalId == timelineIntervalId && this.hostId == hostId
      ensures this.startTime == startTime && this.endTime == endTime && this.times == times
    {
      this.timelineIntervalId := timelineIntervalId;
      this.hostId := hostId;
      this.startTime := startTime;
      this.endTime := endTime;
      this.times := times;
    }

    /**
     * The byte-array constructor: reads `count` big-endian ints from `bytes`;
     * `IntBuffer.get` throws once the index passes the last whole int.
     */
    static method FromTimeArray(timelineIntervalId: int64, hostId: int32, startTime: DateTime, endTime: DateTime,
                                bytes: seq<uint8>, count: int32)
      returns (r: Result<TimelineTimes>)
      ensures r.Err? <==> count > |bytes| / 4
      ensures r.Err? ==> r.exception == "IndexOutOfBoundsException"
      ensures r.Ok? ==> fresh(r.value)
      ensures r.Ok? ==> r.value.timelineIntervalId == timelineIntervalId && r.value.hostId == hostId
      ensures r.Ok? ==> r.value.startTime == startTime && r.value.endTime == endTime
      ensures r.Ok? ==> r.value.times == DecodeTimes(bytes, if count < 0 then 0 else count)
    {
      var list: seq<DateTime> := [];
      var i: int32 := 0;
      while i < count
        invariant 0 <= i <= if count < 0 then 0 else count
        invariant 4 * i <= |bytes|
        invariant list == DecodeTimes(bytes, i)
      {
        if 4 * i + 4 > |bytes| {
          assert count > |bytes| / 4;
          return Err("IndexOutOfBoundsException");
        }
        list := list + [DateTimeFromUnixSeconds(IntAt(bytes, i))];
        i := i + 1;
      }
      assert i == if count < 0 then 0 else count;
      assert !(count > |bytes| / 4);
      var t := new TimelineTimes(timelineIntervalId, hostId, startTime, endTime, list);
      r := Ok(t);
    }

    function GetSampleCount(): (n: int)
      ensures n == |times|
    {
      |times|
    }

    /** The timestamp of sample `sampleNumber`, or null outside `0 .. size-1`. */
    function GetSampleTimestamp(sampleNumber: int): (r: Option<DateTime>)
      ensures r.None? <==> sampleNumber < 0 || sampleNumber >= |times|
      ensures r.Some? ==> r.value == times[sampleNumber]
    {
      if sampleNumber < 0 || sampleNumber >= |times| then None else Some(times[sampleNumber])
    }

    /** Not implemented in the source: every call throws. */
    function GetSampleNumberForTimestamp(timestamp: DateTime): (r: Result<int32>)
      ensures r.Err? && r.exception == "IllegalArgumentException"
    {
      Err("IllegalArgumentException")
    }

    /** `getTimeArray`: the unix seconds of every timestamp, then their big-endian bytes. */
    method GetTimeArray() returns (bytes: array<uint8>)
      ensures fresh(bytes)
      ensures bytes[..] == TimeArray(times)
    {
      var unixTimes := new int32[|times|];
      var i := 0;
      while i < |times|
        invariant 0 <= i <= |times|
        invariant unixTimes[..i] == UnixTimes(times)[..i]
      {
        unixTimes[i] := UnixSeconds(times[i]);
        i := i + 1;
      }
      assert unixTimes[..] == UnixTimes(times);
      bytes := PutInts(unixTimes);
    }
  }

  /** `ByteBuffer.allocate(4 * n).asIntBuffer().put(unixTimes)`: each int's four bytes, most significant first. */
  method PutInts(unixTimes: array<int32>) returns (bytes: array<uint8>)
    ensures fresh(bytes)
    ensures bytes[..] == Encode(unixTimes[..])
  {
    bytes := new uint8[unixTimes.Length * 4];
    var j := 0;
    while j < unixTimes.Length
      invariant 0 <= j <= unixTimes.Length
      invariant bytes[..4 * j] == Encode(unixTimes[..j])
    {
      var b := BigEndian(unixTimes[j]);
      ghost var done := bytes[..4 * j];
      bytes[4 * j] := b[0];
      bytes[4 * j + 1] := b[1];
      bytes[4 * j + 2] := b[2];
      bytes[4 * j + 3] := b[3];
      assert bytes[..4 * j] == done;
      assert bytes[..4 * j + 4] == done + b;
      assert unixTimes[..j + 1][..j] == unixTimes[..j];
      j := j + 1;
    }
    assert unixTimes[..j] == unixTimes[..];
    assert bytes[..] == bytes[..4 * j];
  }

  /**
   * `new TimelineTimes(id, host, start, end, t.getTimeArray(), t.getSampleCount())`:
   * rebuilding from the time array keeps the count and the unix seconds of every sample.
   */
  method RebuildFromTimeArray(t: TimelineTimes) returns (r: Result<TimelineTimes>)
    requires |t.times| < 0x2000_0000
    ensures r.Ok?
    ensures r.Ok? ==> r.value.GetSampleCount() == t.GetSampleCount()
    ensures r.Ok? ==> UnixTimes(r.value.times) == UnixTimes(t.times)
  {
    var bytes := t.GetTimeArray();
    TimeArrayRoundTrip(t.times);
    r := TimelineTimes.FromTimeArray(t.timelineIntervalId, t.hostId, t.startTime, t.endTime, bytes[..], t.GetSampleCount() as int32);
  }
}
