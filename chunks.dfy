/**
 * TimelineChunk: the immutable record of one timeline chunk (one host, one
 * sample kind) and its CSV rendering through CSVOutputProcessor or through a
 * DecimatingSampleFilter.
 *
 * `SampleCoder.scan`, which decodes the chunk's sample bytes and calls the
 * processor once per sample inside the processor's time range, is not part of
 * this model: it is the parameter `scan`, giving the samples it delivers.
 */
module Chunks {
  import opened Base
  import opened Strings
  import opened Samples
  import opened Times
  import opened Csv
  import opened Decimation

  /** The chunk's fields; the getters are the datatype's destructors. */
  datatype TimelineChunk = TimelineChunk(
    chunkId: int64,
    hostId: int32,
    sampleKindId: int32,
    startTime: DateTime,
    endTime: DateTime,
    times: seq<uint8>,
    samples: seq<uint8>,
    sampleCount: int32,
    aggregationLevel: int32,
    notValid: bool,
    dontAggregate: bool)

  /** The constructor for freshly written chunks: level 0, valid, aggregatable. */
  function NewRawChunk(chunkId: int64, hostId: int32, sampleKindId: int32, startTime: DateTime, endTime: DateTime,
                       times: seq<uint8>, samples: seq<uint8>, sampleCount: int32): (c: TimelineChunk)
    ensures c.chunkId == chunkId && c.hostId == hostId && c.sampleKindId == sampleKindId
    ensures c.startTime == startTime && c.endTime == endTime
    ensures c.times == times && c.samples == samples && c.sampleCount == sampleCount
    ensures c.aggregationLevel == 0 && !c.notValid && !c.dontAggregate
  {
    TimelineChunk(chunkId, hostId, sampleKindId, startTime, endTime, times, samples, sampleCount, 0, false, false)
  }

  /** The copy constructor: a new id, every other field (the same buffers included) from `other`. */
  function CopyWithId(chunkId: int64, other: TimelineChunk): (c: TimelineChunk)
    ensures c.chunkId == chunkId
    ensures c.(chunkId := other.chunkId) == other
  {
    TimelineChunk(chunkId, other.hostId, other.sampleKindId, other.startTime, other.endTime, other.times, other.samples,
      other.sampleCount, other.aggregationLevel, other.notValid, other.dontAggregate)
  }

  /** Copying twice keeps only the last id; copying with the chunk's own id gives the chunk back. */
  lemma CopyWithIdLaws(a: int64, b: int64, c: TimelineChunk)
    ensures CopyWithId(b, CopyWithId(a, c)) == CopyWithId(b, c)
    ensures CopyWithId(c.chunkId, c) == c
  {
    assert CopyWithId(a, c).(chunkId := c.chunkId) == c;
  }

  /** One `processOneSample(timestamp, opcode, value)` call made by the scan. */
  datatype Delivered = Delivered(time: DateTime, opcode: Opcode, value: Value)

  /** The consumer calls for samples `d`, numbered consecutively from `first`. */
  function NumberedCalls(d: seq<Delivered>, first: int): (calls: seq<ConsumeCall>)
    ensures |calls| == |d|
    ensures forall i :: 0 <= i < |d| ==> calls[i] == ConsumeCall(first + i, d[i].opcode, d[i].value, Some(d[i].time))
  {
    seq(|d|, i requires 0 <= i < |d| => ConsumeCall(first + i, d[i].opcode, d[i].value, Some(d[i].time)))
  }

  /** The CSV text of the delivered samples: their pairs, comma-separated. */
  function DeliveredPairs(d: seq<Delivered>): (ps: seq<string>)
    ensures |ps| == |d|
    ensures forall i :: 0 <= i < |d| ==> ps[i] == Pair(d[i].time, d[i].value)
  {
    seq(|d|, i requires 0 <= i < |d| => Pair(d[i].time, d[i].value))
  }

  function DeliveredCsv(d: seq<Delivered>): string
  {
    Join(DeliveredPairs(d), ",")
  }

  /** Every delivered sample has a time, so each contributes its pair, whatever the numbering. */
  lemma NumberedCsv(d: seq<Delivered>, first: int)
    ensures Pairs(NumberedCalls(d, first)) == DeliveredPairs(d)
    ensures CsvText(NumberedCalls(d, first)) == DeliveredCsv(d)
  {
    var calls := NumberedCalls(d, first);
    PairsOfAllTimed(calls);
    assert Pairs(calls) == DeliveredPairs(d);
  }

  /** The CSV text holds one pair per delivered sample: it is empty exactly when nothing was delivered. */
  lemma DeliveredCsvEmptyIff(d: seq<Delivered>)
    ensures DeliveredCsv(d) == "" <==> d == []
  {
    var ps := DeliveredPairs(d);
    forall i | 0 <= i < |ps| ensures ps[i] != "" {
      assert ps[i] == IntString(UnixSeconds(d[i].time)) + "," + ValueString(d[i].value);
    }
    JoinEmptyIff(ps, ",");
  }

  /** Processor that forwards every delivered sample, numbered from 0, to its own CSVSampleConsumer. */
  class CSVOutputProcessor {
    const startTime: Option<DateTime>
    const endTime: Option<DateTime>
    const delegate: CSVSampleConsumer
    var sampleNumber: int
    /** The samples received since construction or the last `toString`. */
    ghost var pending: seq<Delivered>

    ghost predicate Valid()
      reads this, delegate
    {
      && delegate.Valid()
      && |pending| <= sampleNumber
      && delegate.calls == NumberedCalls(pending, sampleNumber - |pending|)
    }

    constructor (startTime: Option<DateTime>, endTime: Option<DateTime>)
      ensures Valid() && fresh(delegate)
      ensures this.startTime == startTime && this.endTime == endTime
      ensures sampleNumber == 0 && pending == [] && delegate.builder == ""
    {
      this.startTime := startTime;
      this.endTime := endTime;
      delegate := new CSVSampleConsumer();
      sampleNumber := 0;
      pending := [];
    }

    /** Forwards the sample with the next sample number. */
    method ProcessOneSample(sampleTimestamp: DateTime, opcode: Opcode, value: Value)
      requires Valid()
      modifies this, delegate
      ensures Valid()
      ensures sampleNumber == old(sampleNumber) + 1
      ensures pending == old(pending) + [Delivered(sampleTimestamp, opcode, value)]
      ensures delegate.calls == old(delegate.calls) + [ConsumeCall(old(sampleNumber), opcode, value, Some(sampleTimestamp))]
    {
      delegate.ConsumeSample(sampleNumber, opcode, value, Some(sampleTimestamp));
      sampleNumber := sampleNumber + 1;
      pending := pending + [Delivered(sampleTimestamp, opcode, value)];
      assert delegate.calls == NumberedCalls(pending, sampleNumber - |pending|);
    }

    /** The delegate's text, which drains it. */
    method ToString() returns (s: string)
      requires Valid()
      modifies delegate, this
      ensures Valid() && pending == [] && sampleNumber == old(sampleNumber)
      ensures s == DeliveredCsv(old(pending))
    {
      NumberedCsv(pending, sampleNumber - |pending|);
      s := delegate.ToString();
      pending := [];
    }
  }

  /** `getSamplesAsCSV(startTime, endTime)`: the CSV text of the samples the scan delivers in that range. */
  method GetSamplesAsCSVInRange(chunk: TimelineChunk,
                                scan: (TimelineChunk, Option<DateTime>, Option<DateTime>) -> seq<Delivered>,
                                startTime: Option<DateTime>, endTime: Option<DateTime>)
    returns (s: string)
    ensures s == DeliveredCsv(scan(chunk, startTime, endTime))
  {
    var processor := new CSVOutputProcessor(startTime, endTime);
    var delivered := scan(chunk, startTime, endTime);
    for i := 0 to |delivered|
      invariant processor.Valid() && processor.pending == delivered[..i]
      invariant fresh(processor) && fresh(processor.delegate)
    {
      processor.ProcessOneSample(delivered[i].time, delivered[i].opcode, delivered[i].value);
      assert delivered[..i + 1] == delivered[..i] + [delivered[i]];
    }
    assert delivered[..|delivered|] == delivered;
    s := processor.ToString();
  }

  /** `getSamplesAsCSV()`: the whole chunk, the same text as the range overload with both bounds null. */
  method GetSamplesAsCSV(chunk: TimelineChunk, scan: (TimelineChunk, Option<DateTime>, Option<DateTime>) -> seq<Delivered>)
    returns (s: string)
    ensures s == DeliveredCsv(scan(chunk, None, None))
  {
    s := GetSamplesAsCSVInRange(chunk, scan, None, None);
  }

  /** The history entries the filter builds from delivered samples. */
  function StatesOf(d: seq<Delivered>, toDouble: (Opcode, Value) -> real): (st: seq<SampleState>)
    ensures |st| == |d|
    ensures forall i :: 0 <= i < |d| ==>
      st[i] == SampleState(d[i].opcode, d[i].value, toDouble(d[i].opcode, d[i].value), d[i].time)
  {
    seq(|d|, i requires 0 <= i < |d| => SampleState(d[i].opcode, d[i].value, toDouble(d[i].opcode, d[i].value), d[i].time))
  }

  /**
   * `getSamplesAsCSV(filter)`: the scan feeds the filter (within the filter's
   * own range), then the filter's consumer is drained. The text holds what the
   * consumer held before plus every emission; a fresh filter fed exactly
   * `sampleCount` samples has emitted exactly `outputCount` of them.
   */
  method GetSamplesAsCSVWithFilter(chunk: TimelineChunk,
                                   scan: (TimelineChunk, Option<DateTime>, Option<DateTime>) -> seq<Delivered>,
                                   filter: DecimatingSampleFilter)
    returns (s: string)
    requires filter.Valid() && filter.sampleConsumer.Valid()
    modifies filter, filter.filterHistory, filter.sampleConsumer
    ensures filter.Valid() && filter.sampleConsumer.Valid() && filter.sampleConsumer.builder == ""
    ensures filter.sampleConsumer.calls == [] && filter.sampleConsumer.builderSampleNumber == 0
    ensures var delivered := scan(chunk, filter.startTime, filter.endTime);
      && filter.samples == old(filter.samples) + StatesOf(delivered, filter.getDoubleValue)
      && filter.outputs == Outputs(filter.samples, filter.outputCount, filter.sampleCount)
      && |old(filter.outputs)| <= |filter.outputs|
      && filter.outputs[..|old(filter.outputs)|] == old(filter.outputs)
      && s == CsvText(old(filter.sampleConsumer.calls) + filter.outputs[|old(filter.outputs)|..])
      && (old(filter.sampleNumber) == 0 && |delivered| == filter.sampleCount ==> |filter.outputs| == filter.outputCount)
      && (old(filter.sampleNumber) == 0 && old(filter.sampleConsumer.calls) == [] ==>
            s == CsvText(Outputs(StatesOf(delivered, filter.getDoubleValue), filter.outputCount, filter.sampleCount)))
  {
    var delivered := scan(chunk, filter.startTime, filter.endTime);
    var consumer := filter.sampleConsumer;
    ghost var outputs0 := filter.outputs;
    ghost var samples0 := filter.samples;
    ghost var calls0 := consumer.calls;
    FeedFilter(filter, delivered);
    if |samples0| == 0 && |delivered| == filter.sampleCount {
      EmissionCount(filter.outputCount, filter.sampleCount, filter.sampleNumber, |filter.outputs|, filter.runningSum);
    }
    ghost var pending := consumer.calls;
    s := consumer.ToString();
    if |samples0| == 0 && calls0 == [] {
      assert filter.samples == StatesOf(delivered, filter.getDoubleValue);
      assert pending == filter.outputs by {
        assert |outputs0| == 0;
        assert filter.outputs[|outputs0|..] == filter.outputs;
      }
    }
  }

  /** The loop of `getSamplesAsCSV(filter)`: every delivered sample goes to the filter, in order. */
  method FeedFilter(filter: DecimatingSampleFilter, delivered: seq<Delivered>)
    requires filter.Valid() && filter.sampleConsumer.Valid()
    modifies filter, filter.filterHistory, filter.sampleConsumer
    ensures filter.Valid() && filter.sampleConsumer.Valid()
    ensures filter.samples == old(filter.samples) + StatesOf(delivered, filter.getDoubleValue)
    ensures |old(filter.outputs)| <= |filter.outputs| && filter.outputs[..|old(filter.outputs)|] == old(filter.outputs)
    ensures filter.sampleConsumer.calls == old(filter.sampleConsumer.calls) + filter.outputs[|old(filter.outputs)|..]
  {
    var consumer := filter.sampleConsumer;
    ghost var outputs0 := filter.outputs;
    ghost var samples0 := filter.samples;
    ghost var calls0 := consumer.calls;
    ghost var emitted: seq<ConsumeCall> := [];
    for i := 0 to |delivered|
      invariant filter.Valid() && consumer.Valid()
      invariant filter.samples == samples0 + StatesOf(delivered[..i], filter.getDoubleValue)
      invariant filter.outputs == outputs0 + emitted && consumer.calls == calls0 + emitted
    {
      ghost var outputsBefore := filter.outputs;
      filter.ProcessOneSample(delivered[i].time, delivered[i].opcode, delivered[i].value);
      assert StatesOf(delivered[..i + 1], filter.getDoubleValue) == StatesOf(delivered[..i], filter.getDoubleValue) + [filter.samples[|filter.samples| - 1]];
      ghost var e := if |filter.outputs| == |outputsBefore| then [] else [filter.outputs[|outputsBefore|]];
      assert filter.outputs == outputsBefore + e && consumer.calls == calls0 + emitted + e;
      SeqAssoc(outputs0, emitted, e);
      SeqAssoc(calls0, emitted, e);
      emitted := emitted + e;
    }
    assert delivered[..|delivered|] == delivered;
    assert filter.outputs[..|outputs0|] == outputs0 && filter.outputs[|outputs0|..] == emitted;
  }

  /**
   * The text `getSamplesAsCSV(filter)` returns for a fresh filter and an empty
   * consumer: one pair per emission, `|samples| * outputCount / sampleCount`
   * of them, the `k`-th made of the time and value of the `k`-th emission.
   */
  lemma FilteredCsv(samples: seq<SampleState>, outputCount: int, sampleCount: int)
    requires ValidArguments(outputCount, sampleCount)
    ensures var calls := Outputs(samples, outputCount, sampleCount); var ps := Pairs(calls);
      && |ps| == |calls| == |samples| * outputCount / sampleCount
      && forall k :: 0 <= k < |calls| ==> calls[k].time.Some? && ps[k] == Pair(calls[k].time.value, calls[k].value)
  {
    OutputsCount(samples, outputCount, sampleCount);
    PairsOfAllTimed(Outputs(samples, outputCount, sampleCount));
  }
}
