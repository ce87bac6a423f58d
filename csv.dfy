/**
 * CSVSampleConsumer: a SampleConsumer that accumulates `"<unix seconds>,<value>"`
 * pairs, comma-separated, and hands the text over (and starts afresh) on
 * `toString`.
 */
module Csv {
  import opened Base
  import opened Strings
  import opened Samples
  import opened Times

  /** One `consumeSample(sampleNumber, opcode, value, time)` call of the SampleConsumer interface; `time` may be null. */
  datatype ConsumeCall = ConsumeCall(sampleNumber: int, opcode: Opcode, value: Value, time: Option<DateTime>)

  /** `value == null ? "0" : value.toString()` */
  function ValueString(v: Value): (s: string)
    ensures v.Null? ==> s == "0"
    ensures v.Object? ==> s == v.text
  {
    match v
    case Null => "0"
    case Object(t) => t
  }

  /** The text appended for one accepted sample: its unix seconds, a comma, its value. */
  function Pair(time: DateTime, v: Value): string
  {
    IntString(UnixSeconds(time)) + "," + ValueString(v)
  }

  /** The pairs of the calls that carry a time, in call order. */
  function Pairs(calls: seq<ConsumeCall>): seq<string>
  {
    if calls == [] then []
    else
      var last := calls[|calls| - 1];
      Pairs(calls[..|calls| - 1]) + (if last.time.Some? then [Pair(last.time.value, last.value)] else [])
  }

  /** The text a fresh consumer holds after the calls `calls`. */
  function CsvText(calls: seq<ConsumeCall>): string
  {
    Join(Pairs(calls), ",")
  }

  /** One more call: nothing changes for a null time; otherwise a separator (unless first) and the pair. */
  lemma CsvTextSnoc(calls: seq<ConsumeCall>, c: ConsumeCall)
    ensures Pairs(calls + [c]) == Pairs(calls) + (if c.time.Some? then [Pair(c.time.value, c.value)] else [])
    ensures CsvText(calls + [c]) ==
      if c.time.None? then CsvText(calls)
      else CsvText(calls) + (if |Pairs(calls)| > 0 then "," else "") + Pair(c.time.value, c.value)
  {
    assert (calls + [c])[..|calls|] == calls;
    if c.time.Some? {
      var p := Pair(c.time.value, c.value);
      JoinSnoc(Pairs(calls), p, ",");
      if Pairs(calls) == [] {
        assert CsvText(calls) == "";
        assert CsvText(calls + [c]) == CsvText(calls) + "" + p;
      } else {
        assert CsvText(calls + [c]) == CsvText(calls) + "," + p;
      }
    } else {
      assert Pairs(calls + [c]) == Pairs(calls);
    }
  }

  /** One pair per call that carries a time. */
  lemma PairsOfTimed(calls: seq<ConsumeCall>)
    ensures Pairs(calls) == [] <==> forall i :: 0 <= i < |calls| ==> calls[i].time.None?
    ensures forall k :: 0 <= k < |Pairs(calls)| ==>
      (exists i :: 0 <= i < |calls| && calls[i].time.Some? && Pairs(calls)[k] == Pair(calls[i].time.value, calls[i].value))
  {
    PairsEmptyIff(calls);
    forall k | 0 <= k < |Pairs(calls)|
      ensures exists i :: 0 <= i < |calls| && calls[i].time.Some? && Pairs(calls)[k] == Pair(calls[i].time.value, calls[i].value)
    {
      PairFromTimed(calls, k);
    }
  }

  lemma {:induction false} PairsEmptyIff(calls: seq<ConsumeCall>)
    ensures Pairs(calls) == [] <==> forall i :: 0 <= i < |calls| ==> calls[i].time.None?
  {
    if calls != [] {
      var init := calls[..|calls| - 1];
      PairsEmptyIff(init);
      assert forall i :: 0 <= i < |init| ==> calls[i] == init[i];
    }
  }

  lemma {:induction false} PairFromTimed(calls: seq<ConsumeCall>, k: int)
    requires 0 <= k < |Pairs(calls)|
    ensures exists i :: 0 <= i < |calls| && calls[i].time.Some? && Pairs(calls)[k] == Pair(calls[i].time.value, calls[i].value)
  {
    var init := calls[..|calls| - 1];
    if k < |Pairs(init)| {
      PairFromTimed(init, k);
      var i :| 0 <= i < |init| && init[i].time.Some? && Pairs(init)[k] == Pair(init[i].time.value, init[i].value);
      assert calls[i] == init[i];
    } else {
      assert calls[|calls| - 1].time.Some?;
    }
  }

  /** When every call carries a time, there is one pair per call, in call order. */
  lemma {:induction false} PairsOfAllTimed(calls: seq<ConsumeCall>)
    requires forall i :: 0 <= i < |calls| ==> calls[i].time.Some?
    ensures |Pairs(calls)| == |calls|
    ensures forall k :: 0 <= k < |calls| ==> Pairs(calls)[k] == Pair(calls[k].time.value, calls[k].value)
  {
    if calls != [] {
      var init := calls[..|calls| - 1];
      var last := calls[|calls| - 1];
      assert forall i :: 0 <= i < |init| ==> init[i] == calls[i];
      PairsOfAllTimed(init);
      assert Pairs(calls) == Pairs(init) + [Pair(last.time.value, last.value)];
      forall k | 0 <= k < |calls|
        ensures Pairs(calls)[k] == Pair(calls[k].time.value, calls[k].value)
      {
        if k < |init| {
          assert Pairs(calls)[k] == Pairs(init)[k];
        }
      }
    }
  }

  /** The sample number passed in plays no part in the text. */
  lemma {:induction false} CsvIgnoresSampleNumbers(a: seq<ConsumeCall>, b: seq<ConsumeCall>)
    requires |a| == |b|
    requires forall i :: 0 <= i < |a| ==> a[i].opcode == b[i].opcode && a[i].value == b[i].value && a[i].time == b[i].time
    ensures CsvText(a) == CsvText(b)
    ensures Pairs(a) == Pairs(b)
  {
    if a != [] {
      CsvIgnoresSampleNumbers(a[..|a| - 1], b[..|b| - 1]);
    }
  }

  /** The text is empty exactly when no call carried a time; otherwise it begins with unix seconds, never with a separator. */
  lemma CsvEmptyIffNoTimedSample(calls: seq<ConsumeCall>)
    ensures CsvText(calls) == "" <==> forall i :: 0 <= i < |calls| ==> calls[i].time.None?
    ensures CsvText(calls) != "" ==> CsvText(calls)[0] != ',' && (IsDigit(CsvText(calls)[0]) || CsvText(calls)[0] == '-')
  {
    PairsOfTimed(calls);
    var ps := Pairs(calls);
    forall k | 0 <= k < |ps| ensures ps[k] != "" && ps[k][0] != ',' && (IsDigit(ps[k][0]) || ps[k][0] == '-') {
      var i :| 0 <= i < |calls| && calls[i].time.Some? && ps[k] == Pair(calls[i].time.value, calls[i].value);
    }
    JoinEmptyIff(ps, ",");
    if ps != [] {
      assert CsvText(calls)[..|ps[0]|] == ps[0] by {
        if |ps| > 1 { assert CsvText(calls) == ps[0] + "," + Join(ps[1..], ","); }
      }
    }
  }

  /** The text ends with the pair of the last call that carried a time, so with that sample's value text. */
  lemma CsvEndsWithLastPair(calls: seq<ConsumeCall>, i: nat)
    requires i < |calls| && calls[i].time.Some?
    requires forall j :: i < j < |calls| ==> calls[j].time.None?
    ensures var t := CsvText(calls); var p := Pair(calls[i].time.value, calls[i].value);
      |t| >= |p| && t[|t| - |p|..] == p
  {
    var ps := Pairs(calls);
    LastPairIs(calls, i);
    JoinEndsWithLast(ps, ",");
  }

  lemma {:induction false} LastPairIs(calls: seq<ConsumeCall>, i: nat)
    requires i < |calls| && calls[i].time.Some?
    requires forall j :: i < j < |calls| ==> calls[j].time.None?
    ensures |Pairs(calls)| >= 1 && Pairs(calls)[|Pairs(calls)| - 1] == Pair(calls[i].time.value, calls[i].value)
  {
    if i < |calls| - 1 {
      LastPairIs(calls[..|calls| - 1], i);
    }
  }

  class CSVSampleConsumer {
    /** The StringBuilder's contents. */
    var builder: string
    /** How many pairs the builder holds: the consumer's own counter, not the caller's sample number. */
    var builderSampleNumber: int
    /** Every call received since construction or the last `toString`. */
    ghost var calls: seq<ConsumeCall>

    ghost predicate Valid()
      reads this
    {
      builder == CsvText(calls) && builderSampleNumber == |Pairs(calls)|
    }

    constructor ()
      ensures Valid() && calls == [] && builder == "" && builderSampleNumber == 0
    {
      builder := "";
      builderSampleNumber := 0;
      calls := [];
    }

    /** A sample without a time is dropped; otherwise its pair is appended, preceded by a comma unless it is the first. */
    method ConsumeSample(sampleNumber: int, opcode: Opcode, value: Value, time: Option<DateTime>)
      requires Valid()
      modifies this
      ensures Valid()
      ensures calls == old(calls) + [ConsumeCall(sampleNumber, opcode, value, time)]
      ensures time.None? ==> builder == old(builder) && builderSampleNumber == old(builderSampleNumber)
      ensures time.Some? ==> builder == old(builder) + (if old(builderSampleNumber) > 0 then "," else "") + Pair(time.value, value)
      ensures time.Some? ==> builderSampleNumber == old(builderSampleNumber) + 1
    {
      var call := ConsumeCall(sampleNumber, opcode, value, time);
      CsvTextSnoc(calls, call);
      if time.Some? {
        var valueString := ValueString(value);
        ghost var separated := builder + (if builderSampleNumber > 0 then "," else "");
        if builderSampleNumber > 0 {
          builder := builder + ",";
        }
        assert builder == separated;
        var seconds := IntString(UnixSeconds(time.value));
        builder := builder + seconds + "," + valueString;
        assert builder == separated + Pair(time.value, value);
        builderSampleNumber := builderSampleNumber + 1;
      }
      calls := calls + [call];
    }

    /** Hands over the accumulated text and empties the consumer for re-use. */
    method ToString() returns (s: string)
      requires Valid()
      modifies this
      ensures s == old(builder) && s == CsvText(old(calls))
      ensures Valid() && calls == [] && builder == "" && builderSampleNumber == 0
    {
      s := builder;
      builder := "";
      builderSampleNumber := 0;
      calls := [];
    }
  }

  /** Two `toString` calls in a row: the second returns the empty string. */
  method DrainTwice(c: CSVSampleConsumer) returns (first: string, second: string)
    requires c.Valid()
    modifies c
    ensures first == CsvText(old(c.calls)) && second == ""
  {
    first := c.ToString();
    second := c.ToString();
  }
}
