/**
 * TimelineChunkDecoded.DecodedSampleOutputProcessor: renders the runs of
 * samples the scan reports as human-readable text, one entry per callback,
 * entries separated by ", ". An entry reads
 * `at <time> [<count> of ]<opcode name in lower case>[(<value>)]`.
 */
module Decoded {
  import opened Base
  import opened Strings
  import opened Samples
  import opened Times

  /**
   * The position of the scan in the chunk's times. TimeCursor is not part of
   * this model; this stand-in hands out the given unix times one by one.
   */
  class TimeCursor {
    const times: seq<int32>
    var position: int

    constructor (times: seq<int32>)
      ensures this.times == times && position == 0
    {
      this.times := times;
      position := 0;
    }

    method GetNextTime() returns (t: int32)
      requires 0 <= position < |times|
      modifies this
      ensures t == times[old(position)] && position == old(position) + 1
    {
      t := times[position];
      position := position + 1;
    }
  }

  /** The opcodes that print a parenthesised value: all but NULL, DOUBLE_ZERO and INT_ZERO. */
  predicate HasPayload(op: Opcode)
  {
    !(op == NULL || op == DOUBLE_ZERO || op == INT_ZERO)
  }

  /** The run-length prefix: `"<count> of "` for runs longer than one sample. */
  function CountPrefix(sampleCount: int32): string
  {
    if sampleCount > 1 then IntString(sampleCount) + " of " else ""
  }

  /** The payload suffix: `"(<value>)"` unless the opcode carries no value. */
  function Payload(op: Opcode, value: Value): string
  {
    if HasPayload(op) then "(" + ValueOf(value) + ")" else ""
  }

  /** The text of one callback whose time prints as `formatted`. */
  function Entry(formatted: string, sampleCount: int32, op: Opcode, value: Value): string
  {
    "at " + formatted + " " + CountPrefix(sampleCount) + ToLower(Name(op)) + Payload(op, value)
  }

  /** An entry starts with `"at <time> "`; then comes a digit exactly when a count was printed. */
  lemma EntryPrefix(formatted: string, sampleCount: int32, op: Opcode, value: Value)
    ensures var e := Entry(formatted, sampleCount, op, value); var k := |formatted| + 4;
      && |e| > k
      && e[..k] == "at " + formatted + " "
      && (IsDigit(e[k]) <==> sampleCount > 1)
  {
    var head := "at " + formatted + " ";
    var name := ToLower(Name(op));
    var rest := CountPrefix(sampleCount) + name + Payload(op, value);
    SeqAssoc(head, CountPrefix(sampleCount), name);
    SeqAssoc(head, CountPrefix(sampleCount) + name, Payload(op, value));
    assert Entry(formatted, sampleCount, op, value) == head + rest;
    assert IsLowerAscii(name[0]);
    if sampleCount > 1 {
      assert rest[0] == IntString(sampleCount)[0];
    } else {
      assert rest[0] == name[0];
    }
  }

  /** An entry ends with ")" exactly when its opcode carries a value. */
  lemma EntryEndsWithParenIff(formatted: string, sampleCount: int32, op: Opcode, value: Value)
    ensures var e := Entry(formatted, sampleCount, op, value);
      |e| >= 1 && (e[|e| - 1] == ')' <==> HasPayload(op))
  {
    var name := ToLower(Name(op));
    assert IsLowerAscii(name[|name| - 1]);
  }

  /** The lower-cased name still determines the opcode. */
  lemma LowerNameInjective(a: Opcode, b: Opcode)
    requires ToLower(Name(a)) == ToLower(Name(b))
    ensures a == b
  {
    UpperOfLower(Name(a));
    UpperOfLower(Name(b));
    NameInjective(a, b);
  }

  /** What the processor appends for the samples the scan reports. */
  datatype Callback = Callback(sampleCount: int32, opcode: Opcode, value: Value)

  /** The entries for callbacks `cbs`, the `i`-th stamped with the `i`-th time of the cursor. */
  function Entries(cbs: seq<Callback>, times: seq<int32>, formatTime: DateTime -> string): (es: seq<string>)
    requires |cbs| <= |times|
    ensures |es| == |cbs|
  {
    if cbs == [] then []
    else
      var i := |cbs| - 1;
      Entries(cbs[..i], times, formatTime) + [Entry(formatTime(DateTimeFromUnixSeconds(times[i])), cbs[i].sampleCount, cbs[i].opcode, cbs[i].value)]
  }

  /** Entry `i` renders callback `i` at the cursor's `i`-th time. */
  lemma {:induction false} EntriesAt(cbs: seq<Callback>, times: seq<int32>, formatTime: DateTime -> string, i: int)
    requires |cbs| <= |times| && 0 <= i < |cbs|
    ensures Entries(cbs, times, formatTime)[i] ==
      Entry(formatTime(DateTimeFromUnixSeconds(times[i])), cbs[i].sampleCount, cbs[i].opcode, cbs[i].value)
  {
    if i < |cbs| - 1 {
      EntriesAt(cbs[..|cbs| - 1], times, formatTime, i);
    }
  }

  /** The entries of one more callback are those of the prefix and the entry of that callback. */
  lemma EntriesSnoc(cbs: seq<Callback>, times: seq<int32>, formatTime: DateTime -> string, i: nat)
    requires |cbs| <= |times| && i < |cbs|
    ensures Entries(cbs[..i + 1], times, formatTime) == Entries(cbs[..i], times, formatTime) +
      [Entry(formatTime(DateTimeFromUnixSeconds(times[i])), cbs[i].sampleCount, cbs[i].opcode, cbs[i].value)]
  {
    var c := cbs[..i + 1];
    assert c[..i] == cbs[..i];
    assert c[i] == cbs[i];
  }

  class DecodedSampleOutputProcessor {
    var builder: string
    /** `timestamp.toString("yyyy-MM-dd HH:mm:ss")`; Joda formatting is not part of this model. */
    const formatTime: DateTime -> string
    /** The entries appended so far, in order. */
    ghost var entries: seq<string>

    ghost predicate Valid()
      reads this
    {
      && builder == Join(entries, ", ")
      && (builder == "" <==> entries == [])
    }

    constructor (formatTime: DateTime -> string)
      ensures Valid() && entries == [] && builder == "" && this.formatTime == formatTime
    {
      builder := "";
      this.formatTime := formatTime;
      entries := [];
    }

    /** One callback: a separator unless first, then one entry stamped with the cursor's next time. */
    method ProcessSamples(timeCursor: TimeCursor, sampleCount: int32, opcode: Opcode, value: Value)
      requires Valid() && 0 <= timeCursor.position < |timeCursor.times|
      modifies this, timeCursor
      ensures Valid()
      ensures timeCursor.position == old(timeCursor.position) + 1
      ensures var e := Entry(formatTime(DateTimeFromUnixSeconds(timeCursor.times[old(timeCursor.position)])), sampleCount, opcode, value);
        && entries == old(entries) + [e]
        && builder == old(builder) + (if old(builder) != "" then ", " else "") + e
    {
      ghost var start := builder + (if builder != "" then ", " else "");
      if |builder| > 0 {
        builder := builder + ", ";
      }
      var nextTime := timeCursor.GetNextTime();
      var timestamp := DateTimeFromUnixSeconds(nextTime);
      var stamp := "at " + formatTime(timestamp) + " ";
      builder := builder + stamp;
      var count := CountPrefix(sampleCount);
      builder := builder + count;
      SeqAssoc(start, stamp, count);
      var name := ToLower(Name(opcode));
      builder := builder + name;
      SeqAssoc(start, stamp + count, name);
      var payload := Payload(opcode, value);
      builder := builder + payload;
      SeqAssoc(start, stamp + count + name, payload);
      ghost var e := stamp + count + name + payload;
      JoinSnoc(entries, e, ", ");
      entries := entries + [e];
    }

    /** The accumulated text; reading it clears nothing. */
    function GetDecodedSamples(): (s: string)
      requires Valid()
      reads this
      ensures s == Join(entries, ", ")
      ensures s == "" <==> entries == []
    {
      builder
    }
  }

  /**
   * `getDecodedSamples()` of a chunk: a fresh processor fed every callback of
   * the scan, with a cursor over the chunk's unix times.
   */
  method DecodeSamples(cbs: seq<Callback>, times: seq<int32>, formatTime: DateTime -> string) returns (s: string)
    requires |cbs| <= |times|
    ensures s == Join(Entries(cbs, times, formatTime), ", ")
  {
    var processor := new DecodedSampleOutputProcessor(formatTime);
    var cursor := new TimeCursor(times);
    for i := 0 to |cbs|
      invariant processor.Valid() && cursor.position == i && cursor.times == times
      invariant processor.entries == Entries(cbs[..i], times, formatTime)
      invariant processor.formatTime == formatTime
    {
      ghost var before := processor.entries;
      processor.ProcessSamples(cursor, cbs[i].sampleCount, cbs[i].opcode, cbs[i].value);
      EntriesSnoc(cbs, times, formatTime, i);
      assert processor.entries == before + [Entry(formatTime(DateTimeFromUnixSeconds(times[i])), cbs[i].sampleCount, cbs[i].opcode, cbs[i].value)];
    }
    assert cbs[..|cbs|] == cbs;
    s := processor.GetDecodedSamples();
  }
}
