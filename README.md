# Arecibo timeline read path, modelled in Dafny

This project models the part of Arecibo's time-series store that turns a stored
timeline chunk back into text. It covers seven pieces:

- `DecimatingSampleFilter` reduces a stream of `sampleCount` samples to `outputCount`
  samples. It keeps a circular history of `W = ceil(sampleCount / outputCount)` slots.
  Each time its counter crosses one output it emits one sample: a STRING sample as it
  is, or else the minimum or the maximum of the window, depending on the trend.
- `CSVSampleConsumer` accumulates `<unix seconds>,<value>` pairs separated by commas.
  Its `toString` hands the text over and resets the consumer.
- `TimelineChunk` is the immutable chunk record. Its `CSVOutputProcessor` and the
  three `getSamplesAsCSV` overloads render a chunk as CSV.
- `TimelineChunkDecoded.DecodedSampleOutputProcessor` renders each run of samples as
  `at <time> [<n> of ]<opcode>[(<value>)]`.
- `TimelineTimes` holds a list of timestamps and their 4-byte big-endian unix-seconds
  encoding.
- `DecimationMode.fromString` looks up a mode by name, ignoring case.
- `NotifMapping` is a value class with null-safe `equals`, `hashCode` and `toString`.

## Form of the model

Each source file keeps its own form.

- The stateful objects are Dafny classes with `modifies` clauses:
  `DecimatingSampleFilter`, `CSVSampleConsumer`, `CSVOutputProcessor` and
  `DecodedSampleOutputProcessor`.
- `TimelineTimes` is a class too, but its fields are `const`, as the source's are
  `final`. Its methods change nothing; two of them (`getTimeArray` and the byte-array
  constructor) are loops.
- The filter's history is an `array` written in place. Its loop over the history is a
  `for` loop whose invariant ties it to the pure function `Scan`.
- The loops of `getTimeArray` and of the byte-array constructor are `while` loops proved
  against the codec functions `Encode` and `DecodeTimes`.
- Each class carries ghost history: the consumer's `calls`, the filter's `samples` and
  `outputs`, and the decoded processor's `entries`. Its `Valid()` predicate ties the
  real fields (the builder text, the private counters, the history slots, the running
  counter) to functions of that history. The lemmas then state what those functions mean.
  For the filter these functions replay it on its samples alone: `History` is the
  history array and `Outputs` the calls it has made.
- `TimelineChunk`, `NotifMapping`, `DecimationMode` and `SampleState` are datatypes. Their
  getters are the datatype destructors. The full `TimelineChunk` constructor and the
  `NotifMapping` constructor are the datatype constructors, which store every argument
  unchanged.
- A Java constructor that can throw is a static factory returning `Result`.
- Java `null` is `Option`.
- Java `int` and `long` are the subset types `int32` and `int64`. A Java `byte` is
  signed; the model keeps its unsigned bit pattern, the byte value modulo 256, as `uint8`.
  Two's-complement narrowing is `Wrap32` or `Wrap64`, and truncating division is `JavaDiv`.

Four collaborators are not part of this model, so they enter as parameters:

- `SampleCoder.scan` is a function giving the delivered samples of a chunk for a time
  range.
- `SampleCoder.getDoubleValue` is a function from opcode and value to `real`.
- Joda's `toString("yyyy-MM-dd HH:mm:ss")` is a function from `DateTime` to `string`.
- `TimeCursor` is a small class that hands out a given sequence of unix times.

`DateTimeUtils.unixSeconds` and `DateTimeUtils.dateTimeFromUnixSeconds` are taken to be
the same conversions as the `TimelineTimes` statics of the same name.

The filter's `runningSum` is a double in the source, incremented by
`1/samplesPerOutput`. The model keeps it exactly, as an integer numerator: it grows by
`outputCount` per sample and fires at `sampleCount`. The double `Math.ceil` of
`sampleCount / outputCount` is the exact integer ceiling for `int` operands, and
`CeilSamplesPerOutput` computes it that way. Double values and sums are `real`.
`Double.MIN_VALUE` is 2^-1074, the smallest positive double, and `Double.MAX_VALUE` is
(2 - 2^-52) * 2^1023.

A strictly falling window shows the trend test most clearly. Take values 5, 4, 3, 2, 1
in arrival order, with W = 5 and samplesInAverage = 4. The oldest four sum to 14
(`firstSum`) and the newest four sum to 10 (`lastSum`). So `firstSum > lastSum`, and the
filter emits the minimum, which is the newest sample. `FallingWindowEmitsNewest` proves
this for every falling window; `RisingWindowEmitsNewest` proves the mirror image.

## Model

| member | source | states |
|---|---|---|
| Base.Wrap32 | util/src/main/java/com/ning/arecibo/util/timeline/TimelineTimes.java:122 | Java `int` narrowing: the result differs from the input by a multiple of 2^32 and is the identity on the `int` range |
| Base.Wrap64 | util/src/main/java/com/ning/arecibo/util/timeline/DecimatingSampleFilter.java:136 | Java `long` addition wrap-around: congruent modulo 2^64 and the identity on the `long` range |
| Base.JavaDiv | util/src/main/java/com/ning/arecibo/util/timeline/TimelineTimes.java:122 | Java's integer `/`: the remainder has the sign of the dividend and is smaller than the divisor |
| Base.ShiftRight1 | util/src/main/java/com/ning/arecibo/util/timeline/DecimatingSampleFilter.java:136 | `>> 1` on a long is division rounded toward minus infinity: `2r <= x < 2r + 2` |
| Base.Wrap32Congruent | alert-confdata-support/src/main/java/com/ning/arecibo/alert/confdata/NotifMapping.java:95-98 | narrowing to `int` depends only on the value modulo 2^32, which lets wrapping steps be merged |
| Strings.NatString | util/src/main/java/com/ning/arecibo/util/timeline/CSVSampleConsumer.java:44 | the decimal digits of a natural number, without leading zeros |
| Strings.IntString | util/src/main/java/com/ning/arecibo/util/timeline/CSVSampleConsumer.java:44 | `StringBuilder.append(int)`: at least one character, a minus sign exactly for negatives, digits after it |
| Strings.IntStringRoundTrip | util/src/main/java/com/ning/arecibo/util/timeline/CSVSampleConsumer.java:44 | the decimal rendering of an integer parses back to that integer, so it is unambiguous |
| Strings.NatStringRoundTrip | util/src/main/java/com/ning/arecibo/util/timeline/CSVSampleConsumer.java:44 | the digits of a natural number parse back to it |
| Strings.JoinSnoc | util/src/main/java/com/ning/arecibo/util/timeline/CSVSampleConsumer.java:39-46 | appending a part adds the separator exactly when something was there before |
| Strings.JoinEmptyIff | util/src/main/java/com/ning/arecibo/util/timeline/CSVSampleConsumer.java:39-46 | with non-empty parts, the joined text is empty exactly when there are no parts |
| Strings.JoinEndsWithLast | util/src/main/java/com/ning/arecibo/util/timeline/CSVSampleConsumer.java:39-46 | the joined text ends with its last part: nothing follows the last part |
| Strings.LowerChar | util/src/main/java/com/ning/arecibo/util/timeline/chunks/TimelineChunkDecoded.java:90 | an upper-case ASCII letter becomes a lower-case one that `UpperChar` maps back; every other character is kept |
| Strings.UpperOfLower | util/src/main/java/com/ning/arecibo/util/timeline/chunks/TimelineChunkDecoded.java:90 | lower-casing a name made of upper-case letters and `_` can be undone, so no information is lost |
| Samples.Name | util/src/main/java/com/ning/arecibo/util/timeline/chunks/TimelineChunkDecoded.java:90 | every opcode name is non-empty and made of upper-case ASCII letters and `_` |
| Samples.NameInjective | util/src/main/java/com/ning/arecibo/util/timeline/chunks/TimelineChunkDecoded.java:90 | distinct opcodes have distinct names |
| Times.DateTimeFromUnixSeconds | util/src/main/java/com/ning/arecibo/util/timeline/TimelineTimes.java:114-117 | the instant is the seconds widened to long and multiplied by 1000 |
| Times.UnixSecondsRoundTrip | util/src/main/java/com/ning/arecibo/util/timeline/TimelineTimes.java:119-123 | characterises `UnixSeconds` on the instants `dateTimeFromUnixSeconds` makes: `unixSeconds(dateTimeFromUnixSeconds(s)) == s` for every `int` `s` |
| Times.UnixSecondsTruncates | util/src/main/java/com/ning/arecibo/util/timeline/TimelineTimes.java:119-123 | characterises `UnixSeconds` on every instant: within the `int` range of seconds, `unixSeconds` drops only the sub-second part, toward zero |
| Times.BigEndianRoundTrip | util/src/main/java/com/ning/arecibo/util/timeline/TimelineTimes.java:107-109 | the four big-endian bytes of an `int` read back as that `int` |
| Times.EncodeAt | util/src/main/java/com/ning/arecibo/util/timeline/TimelineTimes.java:107-109 | entry `i` of the encoded buffer is the big-endian encoding of int `i`, at bytes `4i .. 4i+4` |
| Times.DecodeEncode | util/src/main/java/com/ning/arecibo/util/timeline/TimelineTimes.java:56-59 | decoding an encoding with its own count gives back every int in order |
| Times.UnixTimes | util/src/main/java/com/ning/arecibo/util/timeline/TimelineTimes.java:101-105 | the unix seconds of every timestamp, in order |
| Times.TimeArray | util/src/main/java/com/ning/arecibo/util/timeline/TimelineTimes.java:99-112 | the time array of a list of timestamps has four bytes per timestamp |
| Times.TimeArrayAt | util/src/main/java/com/ning/arecibo/util/timeline/TimelineTimes.java:103-111 | bytes `4i .. 4i+4` of the time array are the big-endian encoding of the unix seconds of timestamp `i` |
| Times.DecodeTimes | util/src/main/java/com/ning/arecibo/util/timeline/TimelineTimes.java:56-60 | decoding `count` ints from a byte array gives exactly `count` instants; `TimeArrayRoundTrip` relates it to `TimeArray` |
| Times.TimeArrayRoundTrip | util/src/main/java/com/ning/arecibo/util/timeline/TimelineTimes.java:52-61 | the time array has four bytes per timestamp, and decoding it yields the same unix seconds, in order |
| Times.TimelineTimes.constructor | util/src/main/java/com/ning/arecibo/util/timeline/TimelineTimes.java:43-50 | the list constructor stores its arguments |
| Times.TimelineTimes.FromTimeArray | util/src/main/java/com/ning/arecibo/util/timeline/TimelineTimes.java:52-61 | it throws IndexOutOfBounds exactly when `count` exceeds the number of whole ints in the bytes; otherwise the times are the first `count` ints decoded as instants (none for a negative count) |
| Times.TimelineTimes.GetSampleCount | util/src/main/java/com/ning/arecibo/util/timeline/TimelineTimes.java:78-81 | the number of timestamps |
| Times.TimelineTimes.GetSampleTimestamp | util/src/main/java/com/ning/arecibo/util/timeline/TimelineTimes.java:83-91 | null exactly when the sample number is negative or at least the count, otherwise the timestamp at that position |
| Times.TimelineTimes.GetSampleNumberForTimestamp | util/src/main/java/com/ning/arecibo/util/timeline/TimelineTimes.java:93-97 | always throws IllegalArgumentException |
| Times.TimelineTimes.GetTimeArray | util/src/main/java/com/ning/arecibo/util/timeline/TimelineTimes.java:99-112 | a fresh array holding the big-endian encoding of the unix seconds of every timestamp, so four bytes per timestamp |
| Times.PutInts | util/src/main/java/com/ning/arecibo/util/timeline/TimelineTimes.java:107-111 | `IntBuffer.put` on a fresh buffer: the bytes are the big-endian encoding of the ints, in order |
| Times.RebuildFromTimeArray | util/src/main/java/com/ning/arecibo/util/timeline/TimelineTimes.java:52-61 | rebuilding from `getTimeArray()` with `count = getSampleCount()` succeeds, keeps the count and keeps the unix seconds of every sample |
| Csv.ValueString | util/src/main/java/com/ning/arecibo/util/timeline/CSVSampleConsumer.java:38 | a null value renders as "0", any other as its text |
| Csv.CsvTextSnoc | util/src/main/java/com/ning/arecibo/util/timeline/CSVSampleConsumer.java:39-46 | characterises `CsvText` and `Pair` call by call: a call with a null time leaves the text as it was; otherwise a comma unless first, then the pair |
| Csv.PairsOfTimed | util/src/main/java/com/ning/arecibo/util/timeline/CSVSampleConsumer.java:37 | there are no pairs exactly when no call carried a time, and every pair comes from a call that carried one |
| Csv.PairsEmptyIff | util/src/main/java/com/ning/arecibo/util/timeline/CSVSampleConsumer.java:37 | there are no pairs exactly when no call carried a time |
| Csv.PairFromTimed | util/src/main/java/com/ning/arecibo/util/timeline/CSVSampleConsumer.java:37-47 | every pair comes from a call that carried a time |
| Csv.PairsOfAllTimed | util/src/main/java/com/ning/arecibo/util/timeline/CSVSampleConsumer.java:37-46 | when every call carries a time, there is one pair per call, in call order |
| Csv.CsvIgnoresSampleNumbers | util/src/main/java/com/ning/arecibo/util/timeline/CSVSampleConsumer.java:27-28 | calls that agree except in their sample numbers give the same text |
| Csv.CsvEmptyIffNoTimedSample | util/src/main/java/com/ning/arecibo/util/timeline/CSVSampleConsumer.java:37-46 | characterises `CsvText` as a whole: the text is empty exactly when no call carried a time; otherwise it starts with unix seconds, never with a separator |
| Csv.CsvEndsWithLastPair | util/src/main/java/com/ning/arecibo/util/timeline/CSVSampleConsumer.java:43-46 | the text ends with the pair of the last call that carried a time: nothing follows the last pair |
| Csv.LastPairIs | util/src/main/java/com/ning/arecibo/util/timeline/CSVSampleConsumer.java:43-46 | the last pair is that of the last call that carried a time |
| Csv.CSVSampleConsumer.constructor | util/src/main/java/com/ning/arecibo/util/timeline/CSVSampleConsumer.java:26-32 | a fresh consumer holds the empty text and a zero counter |
| Csv.CSVSampleConsumer.ConsumeSample | util/src/main/java/com/ning/arecibo/util/timeline/CSVSampleConsumer.java:35-49 | a null time changes neither the text nor the counter; otherwise it appends a comma (only when the counter is positive) and `unixSeconds(time) + "," + valueString`, and adds one to the counter |
| Csv.CSVSampleConsumer.ToString | util/src/main/java/com/ning/arecibo/util/timeline/CSVSampleConsumer.java:51-59 | it returns the accumulated text, which is the CSV text of every call since the last reset, and resets the text and the counter |
| Csv.DrainTwice | util/src/main/java/com/ning/arecibo/util/timeline/CSVSampleConsumer.java:51-59 | two `toString` calls in a row: the first returns the text, the second "" |
| Decimation.Pow2 | util/src/main/java/com/ning/arecibo/util/timeline/DecimatingSampleFilter.java:107-110 | a power of two is at least 1, and at least 2 from exponent 1 on |
| Decimation.Pow2Grows | util/src/main/java/com/ning/arecibo/util/timeline/DecimatingSampleFilter.java:107-110 | raising the exponent by at least one at least doubles the power |
| Decimation.SentinelBounds | util/src/main/java/com/ning/arecibo/util/timeline/DecimatingSampleFilter.java:107-110 | `2^-c` lies strictly between 0 and 1, and `2^(a+b) - 2^a` is at least 1, for `b, c >= 1` |
| Decimation.DoubleSentinels | util/src/main/java/com/ning/arecibo/util/timeline/DecimatingSampleFilter.java:107-110 | Double.MIN_VALUE is positive and below 1, and Double.MAX_VALUE is at least 1, so the initial `max` lies below the initial `min` |
| Decimation.ModPeriod | util/src/main/java/com/ning/arecibo/util/timeline/DecimatingSampleFilter.java:114 | adding W to the sample number does not change the slot |
| Decimation.ModDistinct | util/src/main/java/com/ning/arecibo/util/timeline/DecimatingSampleFilter.java:90-91 | two sample numbers less than W apart go to different slots |
| Decimation.CeilSamplesPerOutput | util/src/main/java/com/ning/arecibo/util/timeline/DecimatingSampleFilter.java:80-82 | W is the least integer with `W * outputCount >= sampleCount`, and lies in `[1, sampleCount]` |
| Decimation.SamplesInAverage | util/src/main/java/com/ning/arecibo/util/timeline/DecimatingSampleFilter.java:105-106 | `samplesInAverage` lies in `[1, W]` and below W when W > 1, so `samplesLeftOut = W - samplesInAverage` is at least 0, and positive when W > 1 |
| Decimation.SamplesInAverageAsWritten | util/src/main/java/com/ning/arecibo/util/timeline/DecimatingSampleFilter.java:105 | the source's `ceilSamplesPerOutput * 2 / 3` in wrapping `int` arithmetic agrees with `SamplesInAverage` below W = 2^30 |
| Decimation.SamplesInAverageOverflows | util/src/main/java/com/ning/arecibo/util/timeline/DecimatingSampleFilter.java:80-106 | valid counts give W = 2^30, for which the source's `samplesInAverage` is negative |
| Decimation.AgeIndex | util/src/main/java/com/ning/arecibo/util/timeline/DecimatingSampleFilter.java:114 | the slot scanned at step `i` is a valid index into the history |
| Decimation.Scan | util/src/main/java/com/ning/arecibo/util/timeline/DecimatingSampleFilter.java:107-133 | the loop's `maxIndex` and `minIndex` are valid slots |
| Decimation.ChosenIndex | util/src/main/java/com/ning/arecibo/util/timeline/DecimatingSampleFilter.java:137-146 | the slot emitted for a numeric sample is a valid slot |
| Decimation.Emission | util/src/main/java/com/ning/arecibo/util/timeline/DecimatingSampleFilter.java:95-146 | the emitted call carries the current sample number and a time; a STRING sample passes through with its own opcode, value and time; otherwise the opcode and value are those of the chosen slot |
| Decimation.ScanMax | util/src/main/java/com/ning/arecibo/util/timeline/DecimatingSampleFilter.java:107-124 | `max` bounds every scanned value and is at least Double.MIN_VALUE; while nothing exceeds Double.MIN_VALUE, `maxIndex` stays 0; otherwise `maxIndex` is the slot of the newest sample attaining `max`, with every newer sample below it |
| Decimation.ScanMin | util/src/main/java/com/ning/arecibo/util/timeline/DecimatingSampleFilter.java:107-128 | the mirror image for `min`, starting at Double.MAX_VALUE |
| Decimation.RecentAfterWrite | util/src/main/java/com/ning/arecibo/util/timeline/DecimatingSampleFilter.java:88-91 | writing a sample into slot `sampleNumber mod W` keeps each of the last W samples in its slot |
| Decimation.WindowAt | util/src/main/java/com/ning/arecibo/util/timeline/DecimatingSampleFilter.java:113-115 | once W samples have arrived, step `j` of the scan reads the sample `j` steps before the newest |
| Decimation.ScanSums | util/src/main/java/com/ning/arecibo/util/timeline/DecimatingSampleFilter.java:105-132 | once the window is full, `lastSum` is the sum of the newest `samplesInAverage` samples and `firstSum` the sum of the oldest `samplesInAverage` |
| Decimation.ScanSumsUpTo | util/src/main/java/com/ning/arecibo/util/timeline/DecimatingSampleFilter.java:113-132 | the same sums after the first `i` steps of the loop |
| Decimation.Rising | util/src/main/java/com/ning/arecibo/util/timeline/DecimatingSampleFilter.java:137-146 | in a strictly rising stretch, an older sample is below every newer one |
| Decimation.Falling | util/src/main/java/com/ning/arecibo/util/timeline/DecimatingSampleFilter.java:137-146 | in a strictly falling stretch, an older sample is above every newer one |
| Decimation.RisingSums | util/src/main/java/com/ning/arecibo/util/timeline/DecimatingSampleFilter.java:137-146 | in a rising stretch, a run of samples outweighs the same-length run taken earlier |
| Decimation.FallingSums | util/src/main/java/com/ning/arecibo/util/timeline/DecimatingSampleFilter.java:137-146 | in a falling stretch, a run of samples weighs less than the same-length run taken earlier |
| Decimation.ScanStep | util/src/main/java/com/ning/arecibo/util/timeline/DecimatingSampleFilter.java:116-131 | a null slot changes nothing; otherwise `max` and `min` move only to include the slot's value, each to either the old bound or that value, and each index is either kept or set to the visited slot |
| Decimation.SlotScanned | util/src/main/java/com/ning/arecibo/util/timeline/DecimatingSampleFilter.java:113-115 | every slot is visited by some step of the scan |
| Decimation.WindowFull | util/src/main/java/com/ning/arecibo/util/timeline/DecimatingSampleFilter.java:116 | once W samples have arrived, no slot is null |
| Decimation.EmissionFromWindow | util/src/main/java/com/ning/arecibo/util/timeline/DecimatingSampleFilter.java:137-146 | a numeric emission carries the opcode and value of one of the last W samples, never an average |
| Decimation.CenterTimeOfWindow | util/src/main/java/com/ning/arecibo/util/timeline/DecimatingSampleFilter.java:134-136 | characterises `CenterTime`: with the window full, the emitted time is `(oldest.millis + newest.millis) >> 1` in long arithmetic |
| Decimation.CenterTimeBetween | util/src/main/java/com/ning/arecibo/util/timeline/DecimatingSampleFilter.java:134-136 | without long overflow, that time lies between the oldest and the newest time |
| Decimation.RisingWindowEmitsNewest | util/src/main/java/com/ning/arecibo/util/timeline/DecimatingSampleFilter.java:137-146 | a strictly rising window above Double.MIN_VALUE takes the maximum branch and emits the newest sample |
| Decimation.RisingTakesMaximum | util/src/main/java/com/ning/arecibo/util/timeline/DecimatingSampleFilter.java:137-146 | a strictly rising window of at least two slots has `firstSum <= lastSum`, so the maximum is chosen |
| Decimation.RisingMaximumIsNewest | util/src/main/java/com/ning/arecibo/util/timeline/DecimatingSampleFilter.java:117-120 | in a strictly rising window whose newest value exceeds Double.MIN_VALUE, `maxIndex` is the newest sample's slot |
| Decimation.FallingWindowEmitsNewest | util/src/main/java/com/ning/arecibo/util/timeline/DecimatingSampleFilter.java:137-141 | a strictly falling window below Double.MAX_VALUE takes the minimum branch and emits the newest sample |
| Decimation.FallingTakesMinimum | util/src/main/java/com/ning/arecibo/util/timeline/DecimatingSampleFilter.java:137-141 | a strictly falling window of at least two slots has `firstSum > lastSum`, so the minimum is chosen |
| Decimation.FallingMinimumIsNewest | util/src/main/java/com/ning/arecibo/util/timeline/DecimatingSampleFilter.java:121-124 | in a strictly falling window whose newest value is below Double.MAX_VALUE, `minIndex` is the newest sample's slot |
| Decimation.NoPositiveValueKeepsSlotZero | util/src/main/java/com/ning/arecibo/util/timeline/DecimatingSampleFilter.java:107-120 | a window with no value above Double.MIN_VALUE leaves `max = Double.MIN_VALUE` and `maxIndex = 0` |
| Decimation.EmissionCount | util/src/main/java/com/ning/arecibo/util/timeline/DecimatingSampleFilter.java:92-94 | with exact accumulation, after `n` samples there have been `floor(n * outputCount / sampleCount)` emissions; after `sampleCount` samples, exactly `outputCount` |
| Decimation.FirstEmissionAtWindowSize | util/src/main/java/com/ning/arecibo/util/timeline/DecimatingSampleFilter.java:80-94 | at least one emission has happened exactly when `n >= W`, so no emission comes before the history has been filled once |
| Decimation.History | util/src/main/java/com/ning/arecibo/util/timeline/DecimatingSampleFilter.java:88-91 | the history after `n` samples has W slots: each sample is written into slot `sampleNumber mod W`, starting from all null |
| Decimation.HistoryRecent | util/src/main/java/com/ning/arecibo/util/timeline/DecimatingSampleFilter.java:88-91 | the replayed history holds each of the last W samples in its slot |
| Decimation.FiresStep | util/src/main/java/com/ning/arecibo/util/timeline/DecimatingSampleFilter.java:92-94 | the counter fires on sample `n` exactly when `n * outputCount / sampleCount` goes up, and then by one |
| Decimation.FiresAfterWindow | util/src/main/java/com/ning/arecibo/util/timeline/DecimatingSampleFilter.java:80-94 | the counter never fires before sample number W |
| Decimation.FiringHistoryFull | util/src/main/java/com/ning/arecibo/util/timeline/DecimatingSampleFilter.java:87-106 | when the counter fires, every history slot is non-null, so the emission can be made |
| Decimation.OutputsCount | util/src/main/java/com/ning/arecibo/util/timeline/DecimatingSampleFilter.java:87-150 | `Outputs`, the consumer calls replayed from the samples alone, number `\|samples\| * outputCount / sampleCount`, and each carries a time |
| Decimation.OutputsPrefix | util/src/main/java/com/ning/arecibo/util/timeline/DecimatingSampleFilter.java:87-150 | more samples only add calls after the earlier ones |
| Decimation.OutputsSnoc | util/src/main/java/com/ning/arecibo/util/timeline/DecimatingSampleFilter.java:92-150 | one more sample adds at most one call, after the earlier ones |
| Decimation.DecimatingSampleFilter.Init | util/src/main/java/com/ning/arecibo/util/timeline/DecimatingSampleFilter.java:74-83 | a fresh filter with W null slots, a zero counter and no samples |
| Decimation.DecimatingSampleFilter.Create | util/src/main/java/com/ning/arecibo/util/timeline/DecimatingSampleFilter.java:74-83 | it throws IllegalArgumentException exactly when `outputCount <= 0 \|\| sampleCount <= 0 \|\| outputCount > sampleCount`; otherwise W null slots with `1 <= W <= sampleCount`, the counters at zero, and the given time range, consumer and value coercion stored |
| Decimation.DecimatingSampleFilter.ScanHistory | util/src/main/java/com/ning/arecibo/util/timeline/DecimatingSampleFilter.java:107-133 | the loop's six variables are `Scan` of the history after W steps |
| Decimation.DecimatingSampleFilter.ProcessOneSample | util/src/main/java/com/ning/arecibo/util/timeline/DecimatingSampleFilter.java:87-150 | the sample number goes up by one; only slot `sampleNumber mod W` changes, to the new sample; the counter grows by `outputCount` and, on reaching `sampleCount`, gives up `sampleCount`; then, and only then, exactly one consumer call (the `Emission`) is made, with the history full and `sampleNumber >= W`; the filter's invariant keeps the history equal to `History` and the calls equal to `Outputs` of the samples so far |
| Decimation.DecimatingSampleFilter.Emit | util/src/main/java/com/ning/arecibo/util/timeline/DecimatingSampleFilter.java:95-146 | the consumer receives exactly the `Emission` for the current history and sample number |
| Chunks.NewRawChunk | util/src/main/java/com/ning/arecibo/util/timeline/chunks/TimelineChunk.java:84-98 | the raw constructor stores its arguments, with level 0, valid, aggregatable |
| Chunks.CopyWithId | util/src/main/java/com/ning/arecibo/util/timeline/chunks/TimelineChunk.java:117-131 | the copy takes the new id, and every other field (the same buffers included) from `other` |
| Chunks.CopyWithIdLaws | util/src/main/java/com/ning/arecibo/util/timeline/chunks/TimelineChunk.java:117-131 | copying twice keeps only the last id; copying with the chunk's own id gives the chunk back |
| Chunks.NumberedCalls | util/src/main/java/com/ning/arecibo/util/timeline/chunks/TimelineChunk.java:187-191 | the delegate calls for delivered samples, numbered consecutively |
| Chunks.DeliveredPairs | util/src/main/java/com/ning/arecibo/util/timeline/CSVSampleConsumer.java:43-46 | one pair per delivered sample, in order |
| Chunks.NumberedCsv | util/src/main/java/com/ning/arecibo/util/timeline/chunks/TimelineChunk.java:187-191 | the numbering does not affect the text, and every delivered sample contributes its pair |
| Chunks.DeliveredCsvEmptyIff | util/src/main/java/com/ning/arecibo/util/timeline/chunks/TimelineChunk.java:145-150 | the CSV text of a chunk is empty exactly when no sample was delivered |
| Chunks.CSVOutputProcessor.constructor | util/src/main/java/com/ning/arecibo/util/timeline/chunks/TimelineChunk.java:178-184 | a fresh delegate consumer and `sampleNumber = 0` |
| Chunks.CSVOutputProcessor.ProcessOneSample | util/src/main/java/com/ning/arecibo/util/timeline/chunks/TimelineChunk.java:186-191 | the delegate receives the sample with the current `sampleNumber`, which then goes up by one |
| Chunks.CSVOutputProcessor.ToString | util/src/main/java/com/ning/arecibo/util/timeline/chunks/TimelineChunk.java:193-197 | the delegate's text for the samples delivered since the last drain, after which nothing is pending |
| Chunks.GetSamplesAsCSVInRange | util/src/main/java/com/ning/arecibo/util/timeline/chunks/TimelineChunk.java:145-150 | the text is the comma-joined pairs of exactly the samples the scan delivers in the range |
| Chunks.GetSamplesAsCSV | util/src/main/java/com/ning/arecibo/util/timeline/chunks/TimelineChunk.java:133-137 | the same text as the range overload with both bounds null |
| Chunks.StatesOf | util/src/main/java/com/ning/arecibo/util/timeline/DecimatingSampleFilter.java:89 | the history entries built from delivered samples carry their opcode, value, coerced double and time |
| Chunks.GetSamplesAsCSVWithFilter | util/src/main/java/com/ning/arecibo/util/timeline/chunks/TimelineChunk.java:139-143 | the filter receives every delivered sample, and its calls become `Outputs` of all the samples it has seen; the text is the CSV text of the consumer's earlier calls plus the new calls; for a fresh filter and empty consumer, it is exactly the CSV text of `Outputs` of the delivered samples; the consumer is drained (no calls, counter 0); a fresh filter fed exactly `sampleCount` samples emits exactly `outputCount` |
| Chunks.FeedFilter | util/src/main/java/com/ning/arecibo/util/timeline/chunks/TimelineChunk.java:141 | the scan's loop: every delivered sample goes to the filter in order, the filter's new calls extend its old ones, and they reach the consumer in that order |
| Chunks.FilteredCsv | util/src/main/java/com/ning/arecibo/util/timeline/chunks/TimelineChunk.java:139-143 | the text for a fresh filter has exactly `\|samples\| * outputCount / sampleCount` pairs, the `k`-th made of the time and value of the `k`-th emission |
| Decoded.TimeCursor.GetNextTime | util/src/main/java/com/ning/arecibo/util/timeline/chunks/TimelineChunkDecoded.java:84 | returns the cursor's current time and advances by one |
| Decoded.EntryPrefix | util/src/main/java/com/ning/arecibo/util/timeline/chunks/TimelineChunkDecoded.java:86-89 | characterises the start of `Entry`: an entry starts with `"at " + time + " "`, and the next character is a digit exactly when `sampleCount > 1` |
| Decoded.EntryEndsWithParenIff | util/src/main/java/com/ning/arecibo/util/timeline/chunks/TimelineChunkDecoded.java:90-99 | characterises the end of `Entry`: an entry ends with ")" exactly when the opcode is not NULL, DOUBLE_ZERO or INT_ZERO |
| Decoded.LowerNameInjective | util/src/main/java/com/ning/arecibo/util/timeline/chunks/TimelineChunkDecoded.java:90 | the lower-cased opcode name still determines the opcode |
| Decoded.Entries | util/src/main/java/com/ning/arecibo/util/timeline/chunks/TimelineChunkDecoded.java:80-100 | one entry per callback |
| Decoded.EntriesAt | util/src/main/java/com/ning/arecibo/util/timeline/chunks/TimelineChunkDecoded.java:84-99 | entry `i` renders callback `i` at the cursor's `i`-th time |
| Decoded.DecodedSampleOutputProcessor.constructor | util/src/main/java/com/ning/arecibo/util/timeline/chunks/TimelineChunkDecoded.java:77 | a fresh processor holds the empty text |
| Decoded.DecodedSampleOutputProcessor.ProcessSamples | util/src/main/java/com/ning/arecibo/util/timeline/chunks/TimelineChunkDecoded.java:80-100 | it pulls exactly one time from the cursor and appends ", " (unless the builder is empty), then the entry for that time |
| Decoded.DecodedSampleOutputProcessor.GetDecodedSamples | util/src/main/java/com/ning/arecibo/util/timeline/chunks/TimelineChunkDecoded.java:102-104 | the entries joined by ", ", empty exactly when there were no callbacks, cleared by nothing |
| Decoded.DecodeSamples | util/src/main/java/com/ning/arecibo/util/timeline/chunks/TimelineChunkDecoded.java:70-74 | the decoded text of a chunk is its callbacks' entries, each at the next time, joined by ", " |
| Modes.ValuesAreAllModes | util/src/main/java/com/ning/arecibo/util/timeline/DecimationMode.java:19-21 | there are exactly two modes, and `values()` lists both |
| Modes.FirstMatch | util/src/main/java/com/ning/arecibo/util/timeline/DecimationMode.java:25-30 | null exactly when no mode's name matches ignoring case; otherwise a matching mode, and the first one if that matches |
| Modes.FromStringIff | util/src/main/java/com/ning/arecibo/util/timeline/DecimationMode.java:23-31 | characterises `FromString`: `fromString(s)` is `m` exactly when `m`'s name equals `s` ignoring case |
| Modes.FromStringNone | util/src/main/java/com/ning/arecibo/util/timeline/DecimationMode.java:23-31 | null exactly for a null string or one matching no name |
| Modes.FromStringRoundTrip | util/src/main/java/com/ning/arecibo/util/timeline/DecimationMode.java:25-28 | `fromString(m.name())` and `fromString(m.name().toLowerCase())` are `m` |
| Notif.FieldEquals | alert-confdata-support/src/main/java/com/ning/arecibo/alert/confdata/NotifMapping.java:79-87 | the null-safe field test holds exactly when both fields are null or equal |
| Notif.Equals | alert-confdata-support/src/main/java/com/ning/arecibo/alert/confdata/NotifMapping.java:67-90 | `equals` holds exactly when the other object is a NotifMapping with the same three fields |
| Notif.EqualsLaws | alert-confdata-support/src/main/java/com/ning/arecibo/alert/confdata/NotifMapping.java:67-90 | `equals` is reflexive and symmetric, false for null and for other classes, and field-by-field |
| Notif.HashCodeClosedForm | alert-confdata-support/src/main/java/com/ning/arecibo/alert/confdata/NotifMapping.java:92-99 | characterises `HashCode`: `hashCode` is `961 * group + 31 * config + id` narrowed once to `int`, null fields counting as 0 |
| Notif.EqualsConsistentWithHashCode | alert-confdata-support/src/main/java/com/ning/arecibo/alert/confdata/NotifMapping.java:67-99 | equal mappings have equal hash codes |
| Notif.FieldText | alert-confdata-support/src/main/java/com/ning/arecibo/alert/confdata/NotifMapping.java:60-62 | a field prints as its decimal value or "null", never containing ',' or '}' |
| Notif.ToString | alert-confdata-support/src/main/java/com/ning/arecibo/alert/confdata/NotifMapping.java:55-65 | the text starts with `NotifMapping{id=` and ends with `}` |
| Notif.SplitAtSeparator | alert-confdata-support/src/main/java/com/ning/arecibo/alert/confdata/NotifMapping.java:60-63 | two field texts followed by the same separator split at the same place |
| Notif.FieldTextInjective | alert-confdata-support/src/main/java/com/ning/arecibo/alert/confdata/NotifMapping.java:60-62 | "null" and the decimal values never coincide, and distinct values print differently |
| Notif.ToStringInjective | alert-confdata-support/src/main/java/com/ning/arecibo/alert/confdata/NotifMapping.java:55-65 | the text determines the mapping: distinct mappings print differently |

## Left out

- Samples.Opcode: `SampleOpcode` is not part of this model. Its ten constants are taken as given; the read path itself names only NULL, INT_ZERO, DOUBLE_ZERO and STRING. `Samples.Name` and `Samples.NameInjective` speak about this set of constants.
- `SampleCoder.scan`, `SampleCoder.getDoubleValue` and `TimeRangeSampleProcessor`'s range check are not part of this model. The delivered samples and the numeric coercion are given functions.
- `TimeCursor` and `DateTimeUtils` are not part of this model either. The cursor is a stand-in over a given sequence of unix times.
- Decoded.TimeCursor.GetNextTime: running the cursor past its end is excluded by a precondition, because the real `TimeCursor` is not part of this model and its behaviour there is unknown.
- Joda date formatting is a given function. Time zones are not modelled: every instant is milliseconds since the epoch, in UTC.
- Decimation.DecimatingSampleFilter.ProcessOneSample: the double `runningSum` is exact here. Floating-point rounding of `outputsPerSample` can move an emission by one sample, which the model does not capture.
- Decimation.DecimatingSampleFilter.ProcessOneSample: `sampleNumber` is an unbounded integer. The source's `int` wraps after 2^31 - 1 samples, and the index `sampleNumber + ceilSamplesPerOutput - i` wraps as soon as `sampleNumber + W` exceeds 2^31 - 1.
- Decimation.DecimatingSampleFilter.ProcessOneSample: the class computes the corrected `SamplesInAverage` (see Findings), not the source's wrapping expression. For W = 2^30 the source's negative `samplesInAverage` makes `samplesLeftOut` exceed every `i`, so both sums stay 0 and the source always takes the maximum branch. For 2^30 < W < 2^31, at the first emission (`sampleNumber >= W`) the index `sampleNumber + ceilSamplesPerOutput - i` wraps to a negative `int` for `i = 0`, so the source throws ArrayIndexOutOfBoundsException where the model emits.
- Decimation.DecimatingSampleFilter.ScanHistory: the scan's window split uses the corrected `SamplesInAverage`, and its indices are unbounded integers, so the source's behaviour for W >= 2^30 described in the previous line is not captured.
- Decimation.DecimatingSampleFilter: the consumer is typed `CSVSampleConsumer`. The source accepts any `SampleConsumer`, but `getSamplesAsCSV` with a filter, the only use modelled here, hands it a CSV consumer, so other consumers are not modelled.
- Decimation.Scan: the sums and comparisons are exact `real` arithmetic, not IEEE-754 doubles, so double rounding in `firstSum` and `lastSum` is not captured.
- Chunks.CSVOutputProcessor.ProcessOneSample: its `int` `sampleNumber` is unbounded here. It would wrap after 2^31 samples, which does not change the text because the consumer ignores it.
- Times.TimelineTimes.GetTimeArray: `unixTimes.length * 4` is not wrapped. For 2^29 or more timestamps the source overflows, so `RebuildFromTimeArray` requires fewer.
- Decoded.DecodedSampleOutputProcessor.ProcessSamples: the model pulls one time per callback, as the source does, even for runs with `sampleCount > 1`.
- Byte arrays are value sequences, so the aliasing of the `times` and `samples` buffers is not modelled. The copy constructor's sharing of the same buffers appears only as equal values.
- Times.TimelineTimes.constructor: the timestamps are stored by value. The source keeps the caller's `List` reference, so later changes to that list would show through; the model does not capture that aliasing.
- `TimelineChunk`'s `sampleCoder` field is not modelled. It only selects the codec, which is not part of this model.
- `TimelineChunk.toString` and `TimelineChunkDecoded.toString` (Jackson JSON output) are left out, because JSON generation is serialisation configuration.
- `getSampleConsumer` is the `sampleConsumer` field of the filter class.
- Strings.ToLower: the model lower-cases ASCII only. This is exact for the opcode and mode names, which are ASCII. Java's `toLowerCase` also lower-cases non-ASCII capitals, and in a Turkish default locale it maps 'I' to a dotless 'ı'; the model captures neither.
- Strings.EqualsIgnoreCase: matches ASCII letters only. It misses the non-ASCII characters Java's `equalsIgnoreCase` matches, such as U+0131 (dotless i), which equals 'I' ignoring case, and the Kelvin sign U+212A, which equals 'k'.
- Modes.FirstMatch: compares names ignoring ASCII case only. Java's `equalsIgnoreCase` also accepts "PEA\u212A_PICK" (with the Kelvin sign) as PEAK_PICK; the model finds no match there.
- Modes.FromStringIff: its if-and-only-if is about ASCII case-insensitive equality, so it inherits the gap of Modes.FirstMatch for non-ASCII input.
- Modes.FromStringNone: the no-match case it states is about ASCII case-insensitive equality; for a name such as "PEA\u212A_PICK" Java returns PEAK_PICK where the model returns null (`None`).
- `synchronized` on `CSVSampleConsumer.toString` is left out, because concurrency is not modelled.

## Findings

| source | as written | input that shows it | evidently intended | confidence | as-written member | corrected member |
|---|---|---|---|---|---|---|
| util/src/main/java/com/ning/arecibo/util/timeline/DecimatingSampleFilter.java:105-106 | `ceilSamplesPerOutput * 2 / 3` is computed in `int` and wraps for W >= 2^30, making `samplesInAverage` negative, so neither sum covers any slot and the trend test degenerates | `outputCount = 1`, `sampleCount = 2^30`: W = 2^30, and `samplesInAverage` = -715827882 | `samplesInAverage` = floor(2W/3), in `[1, W]` | low: not executed, and it needs a history array of 2^30 slots | Decimation.SamplesInAverageAsWritten, Decimation.SamplesInAverageOverflows | Decimation.SamplesInAverage |
