# Verification of the packet metrics import

A Dafny model of the path a seismic data packet takes from the wire to the published metrics of its stream, with
proofs about every input, every run and every interleaving. `dafny verify dfyconfig.toml` checks all of it.

| file | what it models |
|---|---|
| Bytes.dfy, TraceBuf2.dfy, Wire.dfy | packing and unpacking of machine words, the TraceBuf2 decoder, an independent encoder of the wire format, and the packet made from a decoded message |
| Packets.dfy, Samples.dfy, Rounding.dfy | the packet class with its four sample vectors and derived end time, the sums over one packet, and when sums held in doubles are exact |
| StreamNames.dfy, Selector.dfy | stream identifiers, metrics keys, and the text and printed forms of stream selectors |
| Statistics.dfy, Windows.dfy | the two-pass statistics, the one-pass windows, and what relates them |
| Metrics.dfy, Counters.dfy | the metrics singleton: counters, window objects and published maps |
| PacketQueue.dfy, Process.dfy | the drop-oldest queue and the loop of the metrics thread as programs |
| Pipeline.dfy | the same as a step system: arrivals, a clock that may jump, and the metrics thread in small steps |
| Conservation.dfy, Provenance.dfy, WindowHistory.dfy, Exporter.dfy, Pacing.dfy, Summary.dfy | what holds at every step of every run |

A step of the pipeline is one access under one lock, one atomic increment or one clock reading, so every state of
a run is something another thread could see. The state carries histories: all arrivals, which of them were consumed
or dropped, and for each stream its good packets with the arrivals they were, its closed windows and the packets of
the open window. The metrics thread is modelled twice, as a program over objects and as steps, and the two are proved
to agree, with arrivals anywhere in between.

Integer samples are exact integers, and gauges and sums are reals. A published deviation is kept as its square;
it is never negative, so the square determines it. Floats and doubles on the wire are bit patterns, and the value of
a pattern is a parameter that the theorems quantify over. Overflow of the 32-bit and 64-bit products of the inner
product is two's complement wrap-around, which is what common compilers do with it. The host is little-endian, the C locale
is in force, and the release build's behaviour is modelled where a debug build would stop on an assertion. The
queue capacity and the update interval are positive, which the options check (src/earthwormPacketMetrics.cpp:165,
src/earthwormPacketMetrics.cpp:218).

## Where the code differs from what one might expect

- Bessel's factor multiplies the deviation, so the squared deviation is n/(n-1) times the unbiased sample variance
  (`Windows.DeviationAgainstSampleVariance`).
- The inner product multiplies in the integer type. The square sum is right exactly when every sample is within 46340
  (3037000499 for 64 bits); otherwise it is too small, and the clamp at zero can then take effect. The published deviation
  is the two-pass one exactly when no square overflows or the samples are constant (`Samples.SumsExact`,
  `Windows.GaugesAgainstTwoPass`).
- A packet that cannot be tabulated, because it has no identifier, no data or no rate, skips the flush. Such packets,
  one per pass, keep every stream from being published for any length of time. Without them the gap is at most two
  intervals and three passes, and that bound holds exactly when no such packet can arrive (`Pacing.PaceIffAllWellFormed`).
  Packets made from decoded messages always have an identifier and a sampling rate (`Wire.ReceivedPacketsAreBuilt`), so
  on that path only empty messages can do this.
- A SEEDLink summary can show more valid packets than packets. It prints differences, and a packet's two increments
  can straddle the previous reading; reading the total before the valid count adds what is counted in between.
  `Summary.ReportIsConsistent` says when exactly a report is consistent, and `Summary.InstantReports` the same for
  counters read at one instant. The exporter's registration order reads the total last and is safe.
- Eight-byte floats are refused although a branch for them exists (`TraceBuf2.DoublesAreRefused`).
- A decoded TraceBuf2 keeps its start time as end time; only the packet's end time is right
  (`TraceBuf2.DecodedEndTimeIsStale`).
- A selector with only a network always fails (`Selector.NetworkAloneFails`).
- Codes with underscores can make two streams share a key (`StreamNames.UnderscoreCollision`). A stream has its key to
  itself exactly when no underscore in its codes could be the joining one (`StreamNames.SharedNamesIff`).
- Packets expire after 180 days, not the two months of the repository's README.md:13.

## Model

| member | source | states |
|---|---|---|
| Conservation.EveryPacketAccountedFor | src/earthwormPacketMetrics.cpp:392-474 | after any interleaving the arrivals are as many as the queued, the dropped, the one in hand, the unnamed and the totals together, and each total is the sum of its verdicts and the packet being decided |
| Provenance.TotalsCountArrivals | src/metricsSingleton.cpp:204-214 | in every state of every run a stream's total is the number of consumed arrivals with its key, less one that is not counted yet, and consumed, dropped and queued arrivals partition all arrivals |
| Provenance.GoodPacketsAreArrivals | src/metricsSingleton.cpp:204-259 | in every state of every run a stream's good packets are consumed arrivals with its key, in order and none twice, each with that arrival's samples and the latency the clock showed when it was classified |
| Provenance.FutureAndExpiredCounts | src/metricsSingleton.cpp:219-239 | in every run a future count rises by one exactly for a packet that had not ended at the clock reading that classified it, an expired count for one that began more than 180 days before |
| Conservation.CountersOnRuns | src/metricsSingleton.cpp:204-259 | the counter invariant, including the per-stream split into valid, future, expired and rejected, holds in every state of every run |
| Conservation.CumulativeCountersLead | src/metricsSingleton.cpp:398-419 | each cumulative counter is ahead of the sum over its streams by nought or one at every instant |
| Conservation.QueueOnRuns | src/earthwormPacketMetrics.cpp:392-439 | the queue is always the newest arrivals within capacity, what left it was consumed in order or dropped, once, and every drop had exactly capacity newer arrivals |
| Conservation.LossNeedsCapacityNewerArrivals | src/seedLinkPacketMetrics.cpp:422-469 | a packet with fewer than capacity newer arrivals was not lost to overflow |
| PacketQueue.PushKeepsNewest | src/earthwormPacketMetrics.cpp:397-404 | pushing keeps the newest arrivals, within capacity, and drops at most one, exactly when the queue was full |
| PacketQueue.Queue.AddPacketCallback | src/earthwormPacketMetrics.cpp:392-418 | the loop that removes from the front leaves exactly the specified queue and reports how many were skipped |
| PacketQueue.Queue.Pop | src/earthwormPacketMetrics.cpp:431-439 | the oldest packet is taken, if there is one |
| WindowHistory.StreamsOnRuns | src/metricsSingleton.cpp:243-284 | in every state of every run each stream's window, counters, closed windows and published values agree with its history |
| WindowHistory.WindowsPartitionHistory | src/metricsSingleton.cpp:79-145 | closed windows, the open one and the packet in hand list the stream's good packets once and in order, the open sums are their fold, and the packet counts add up to received or received less one |
| WindowHistory.PublishedMapsAgree | src/metricsSingleton.cpp:262-309 | the three published maps have the same keys, all with a window, and hold the values of one and the same closed window; window keys are the received keys up to the packet in flight |
| WindowHistory.PublishedGaugesAreStatistics | src/metricsSingleton.cpp:98-145 | published latency and mean are the two-pass statistics of that window, the deviation exactly when all squares fit or the samples are constant, an empty window publishes interval and zeros, and a latency lies in 0 to 180 days |
| WindowHistory.PublishedGaugesBounded | src/metricsSingleton.cpp:120-128 | samples in [lo, hi] give a published mean in [lo, hi] and a squared deviation of at most (hi - mean)(mean - lo) times the squared Bessel factor, so at most half the range times the factor |
| WindowHistory.PublicationsSpaced | src/metricsSingleton.cpp:98-103 | publications of one stream are interval * 1000000 microseconds apart each, and the first is that long after the window was opened, whatever the clock does |
| WindowHistory.OpenLatencySumFits | src/metricsSingleton.cpp:94 | the 64-bit latency sum of an open window cannot overflow up to 593066 packets |
| Pacing.PublicationsKeepPace | src/earthwormPacketMetrics.cpp:427-473 | on a forward clock, with passes of at most d microseconds and only well-formed packets, no stream goes longer than two intervals and three passes without publication |
| Pacing.PaceIffAllWellFormed | src/earthwormPacketMetrics.cpp:427-473 | for any set of packets with a good one among them, all paced runs whose arrivals come from the set keep the bound exactly when every packet of the set is well formed |
| Pacing.RejectedPacketsStarvePublication | src/earthwormPacketMetrics.cpp:443-457 | a packet without identifier, data or rate arriving once per pass keeps anything from being published for n passes, for any n |
| Pacing.PaceFailsWithRejectedPackets | src/earthwormPacketMetrics.cpp:443-457 | from a fresh start there is a paced run made of one good packet and any one that is not well formed in which the good one's stream is overdue |
| Pacing.WindowTouched | src/metricsSingleton.cpp:243-258 | outside a flush nothing closes, and a window appears only with a good packet, opened at the clock time of that step |
| Pacing.FlushesBegin | src/earthwormPacketMetrics.cpp:443-468 | what each step does to the course of a pass: when the idle thread flushes and when it sleeps, and that only a flush after a packet is followed by storing the last update |
| Pacing.ClosuresHaveCause | src/earthwormPacketMetrics.cpp:427-473 | in every run a window is closed only by a flush that follows a packet of the same pass, or a look at the empty queue when the clock showed more than interval * 1000000 microseconds after the thread's last update |
| Exporter.ExporterNeverOvercounts | src/earthwormPacketMetrics.cpp:328-359 | valid, future and expired read at any earlier moments never exceed the total read last |
| Exporter.CountersGrowOnRuns | src/metricsSingleton.cpp:312-419 | no counter ever falls between two moments of a run |
| Exporter.ClassifiedStreamsHaveTotals | src/metricsSingleton.cpp:207-244 | every stream with a valid, future or expired count has a total |
| Exporter.CumulativeOnRuns | src/metricsSingleton.cpp:398-419 | at one instant the cumulative total is the cumulative valid count plus all future, expired and rejected packets and the one in flight |
| Exporter.TotalReadFirst | src/earthwormPacketMetrics.cpp:328-359 | why the registration order matters: were the total read first, the three would stay within it exactly when they gained no more since than the stream's rejected and undecided packets at that moment |
| Exporter.TotalReadFirstCanLag | src/earthwormPacketMetrics.cpp:328-359 | in the order the registration avoids, a total read first can be exceeded: one valid packet out of none |
| Summary.Reporter.PrintSummary | src/seedLinkPacketMetrics.cpp:506-529 | a report is due exactly when more than interval * 1000000 microseconds have passed since the last, and is the difference of the readings |
| Summary.ReportsTelescope | src/seedLinkPacketMetrics.cpp:518-523 | all reports together say exactly what the last reading said |
| Summary.ReadingSkew | src/seedLinkPacketMetrics.cpp:518-519 | the valid count as read leads the total as read by the valid packets counted between the two reads, less those not valid and the one in flight |
| Summary.ReportExcess | src/seedLinkPacketMetrics.cpp:518-527 | by how much any report of any run shows more valid packets than packets |
| Summary.ReportIsConsistent | src/seedLinkPacketMetrics.cpp:518-527 | a report shows no more valid packets than packets exactly when those counted while it was read and the packet in flight at the previous reading are no more than those counted during that reading, the packet in flight now and those not valid in between |
| Summary.InstantReports | src/seedLinkPacketMetrics.cpp:518-527 | with both counters read at one instant a report shows at most one valid packet too many, and does so exactly when a packet was in flight at the previous reading, none is now and none in between was not valid |
| Summary.ReportCanShowMoreValidThanReceived | src/seedLinkPacketMetrics.cpp:518-527 | the first report can be one valid packet among none received, read at two moments |
| Summary.InstantReportCanShowMoreValidThanReceived | src/seedLinkPacketMetrics.cpp:518-527 | so can the second, with both counters read at one instant each time |
| Process.Process.Pass | src/earthwormPacketMetrics.cpp:427-473 | one loop pass over queue and singleton, with the flush and the last update skipped when tabulating fails, and nothing changed when the queue is empty and the last update no more than the interval ago |
| Process.IdlePass | src/earthwormPacketMetrics.cpp:460-468 | a pass without a packet flushes exactly when the clock shows more than interval * 1000000 microseconds after the last update, and never stores a last update |
| Process.BusyPass | src/earthwormPacketMetrics.cpp:441-458 | a pass with a packet flushes and stores the last update exactly when the packet has identifier, data and rate; otherwise windows and published values stay |
| Process.Process.TabulateMetrics | src/earthwormPacketMetrics.cpp:420-474 | the loop, with packets pushed before and during its passes, has the effect of its turns one after the other |
| Process.StepsComposeToPass | src/earthwormPacketMetrics.cpp:427-473 | the small steps of the metrics thread, undisturbed, have exactly the effect of the program's pass for all clock readings |
| Process.ArrivalCommutes | src/earthwormPacketMetrics.cpp:392-439 | an arrival during a pass may be moved behind the next step |
| Process.FedPassIsPass | src/earthwormPacketMetrics.cpp:427-473 | wherever in a pass packets arrive, the state at its end is as if they had arrived after it |
| Process.FedLoopIsProgram | src/earthwormPacketMetrics.cpp:420-474 | the small steps of any number of passes, with arrivals between any two of them, have exactly the effect on queue, tables and last update of the program's loop with the same arrivals |
| Pipeline.CountersTouched | src/metricsSingleton.cpp:207-244 | each step increments the one counter of its place in the call and no other |
| Metrics.MetricsSingleton.TabulateMetrics | src/metricsSingleton.cpp:204-259 | the whole call on the object tables: counters, classification and window |
| Metrics.MetricsSingleton.UpdateWindow | src/metricsSingleton.cpp:245-258 | the stream's window is created or updated and every other window is untouched |
| Metrics.MetricsSingleton.UpdateAndResetWindowedMetrics | src/metricsSingleton.cpp:262-285 | walking the window map in any order closes exactly the due windows and publishes exactly their gauges |
| Metrics.MetricsSingleton.IncrementTotalPacketsCounter | src/metricsSingleton.cpp:377-390 | one is added to that stream's total and nothing else changes |
| Metrics.MetricsSingleton.IncrementReceivedPacketsCounter | src/metricsSingleton.cpp:311-324 | one is added to that stream's received count and nothing else changes |
| Metrics.MetricsSingleton.IncrementFuturePacketsCounter | src/metricsSingleton.cpp:333-346 | one is added to that stream's future count and nothing else changes |
| Metrics.MetricsSingleton.IncrementExpiredPacketsCounter | src/metricsSingleton.cpp:355-368 | one is added to that stream's expired count and nothing else changes |
| Metrics.GoodPackets | src/metricsSingleton.cpp:219-242 | a packet is good exactly when it has data and a rate and lies within the last 180 days of 86400 seconds; its latency then is the true one and in range, so the clamp at zero does nothing |
| Metrics.OtherVerdicts | src/metricsSingleton.cpp:211-238 | when a packet is rejected, future or expired, exactly |
| Metrics.CountedByVerdict | src/metricsSingleton.cpp:204-259 | one call adds one to the stream's total and one to the count of its verdict, decided by the packet's times, and to no other stream |
| Windows.WindowedMetrics.Update | src/metricsSingleton.cpp:79-96 | a packet's sums are added to the window |
| Windows.WindowedMetrics.UpdateAndReset | src/metricsSingleton.cpp:98-145 | a window is closed exactly when interval * 1000000 microseconds or more have passed; it publishes the one-pass values and starts again empty at the given time |
| Windows.DueAfterInterval | src/metricsSingleton.cpp:98-103 | a window is due exactly interval * 1000000 microseconds after its last update |
| Windows.FoldIsSums | src/metricsSingleton.cpp:84-95 | the running counts and sums are those of all samples of the window's packets |
| Windows.FoldSquares | src/metricsSingleton.cpp:91 | the running square sum is at most the true one, and equal exactly when every square fits its width |
| Windows.GaugesAgainstTwoPass | src/metricsSingleton.cpp:110-128 | for every window latency and mean equal the two-pass values, and the deviation does exactly when all squares fit or the samples are constant |
| Windows.DeviationAgainstSampleVariance | src/metricsSingleton.cpp:112-128 | the squared deviation is n/(n-1) times the unbiased sample variance |
| Windows.PublishedLatencyIsMean | src/metricsSingleton.cpp:110-121 | the published latency times the number of packets is the sum of their latencies, a million microseconds to the second |
| Windows.MeanIgnoresSplitting | src/metricsSingleton.cpp:112-122 | how samples were split into packets, ordered and held does not matter to the mean |
| Windows.DeviationIgnoresSplitting | src/metricsSingleton.cpp:112-128 | nor to the deviation, overflow included, while each width holds the same samples, and whatever the widths where all squares fit |
| Windows.GaugeBounds | src/metricsSingleton.cpp:120-128 | samples in [lo, hi] bound the mean by [lo, hi] and the squared deviation by (hi - mean)(mean - lo) times the squared Bessel factor, overflow or not |
| Windows.PublishedLatencyInRange | src/metricsSingleton.cpp:119-121 | the average latency of a nonempty window lies in 0 to 15552000 seconds |
| Windows.LatencySumFits | src/metricsSingleton.cpp:94 | up to 593066 packets with good packets' latencies fit the 64-bit latency sum |
| Windows.LatencySumCanOverflow | src/metricsSingleton.cpp:94 | 593067 packets, each 180 days late, do not |
| Windows.EmptyWindowGauges | src/metricsSingleton.cpp:104-107 | an empty window publishes its interval, zero and zero |
| Statistics.OnePassIsTwoPass | src/metricsSingleton.cpp:123-126 | n times the square sum less the squared sum is n times the scatter about the mean |
| Statistics.VarianceNonNegative | src/metricsSingleton.cpp:127-128 | the exact variance is never negative, and zero only for constant samples |
| Statistics.VarianceBetween | src/metricsSingleton.cpp:123-126 | the variance is at most (hi - mean)(mean - lo), so at most a quarter of the squared range |
| Statistics.MeanBetween | src/metricsSingleton.cpp:122 | the mean lies between the bounds of the samples |
| Statistics.SumsIgnoreOrder | src/packet.cpp:450-477 | the sums depend only on how often each value occurs |
| Samples.SumsExact | src/packet.cpp:443-486 | the sum is exact, and the square sum exactly when every sample is within the root of its width |
| Samples.WrapIsCongruent | src/packet.cpp:455 | an overflowed product is in range and differs from the true one by a multiple of 2^32 or 2^64 |
| Samples.LargestExactSamples | src/packet.cpp:455 | a square fits exactly from -46340 to 46340 for 32 bits and from -3037000499 to 3037000499 for 64 bits |
| Rounding.RoundedSumIsExact | src/packet.cpp:450-477 | a double accumulator is exact while terms and partial sums stay within 2^53 |
| Rounding.PacketSumsNeverRound | src/packet.cpp:450-477 | then both sums of a packet of either integer width are those of the model |
| Rounding.RoundedFoldIsFold | src/metricsSingleton.cpp:84-95 | and the window's two double accumulators are those of the model while their running values stay within 2^53 |
| Rounding.Int32SumsNeverRound | src/packet.cpp:450-456 | neither accumulator of a packet rounds for up to 4194304 32-bit samples |
| Rounding.SmallWindowsNeverRound | src/metricsSingleton.cpp:84-95 | nor do a window's, for up to 4194304 32-bit samples in all its packets |
| Packets.AnyCallsStayValid | src/packet.cpp:54-129 | any sequence of setters, empty data, failing calls and clear keeps type tag, data and end time consistent |
| Packets.FieldsAreLatest | src/packet.cpp:54-129 | after any sequence of calls each field holds what was last set since the last clear, and the end time follows from the others |
| Packets.SettersCommute | src/packet.cpp:271-339 | setters of different fields commute |
| Packets.EndTimeIsLastSample | src/packet.cpp:94-106 | a packet ends no earlier than it starts; with n samples its end is n - 1 sample steps later, to the nearest microsecond and rounded up at a half, and the start without samples or rate |
| Packets.RoundIsNearest | src/packet.cpp:101-102 | rounding goes to the nearest integer, at an exact half away from zero |
| Packets.StartIsNearestMicrosecond | src/packet.cpp:301-313 | a start time in seconds is kept to the nearest microsecond, halves away from zero |
| Packets.Packet.SetData | src/packet.cpp:62-93 | nonempty data replaces all vectors and the tag, empty data changes nothing |
| Packets.Packet.SetSamplingRate | src/packet.cpp:271-281 | a rate that is not positive is refused without effect, any other is set and the end time follows |
| Packets.Packet.SetStartTime | src/packet.cpp:301-313 | the start is rounded to microseconds and the end time follows |
| Packets.Packet.SetStreamIdentifier | src/packet.cpp:231-251 | accepted exactly when all four parts are set |
| Packets.Packet.ClearAll | src/packet.cpp:120-129 | everything is reset |
| Packets.Packet.GetEndTime | src/packet.cpp:320-331 | fails without a rate, then without samples, and otherwise gives the end time |
| Bytes.UnpackPack | src/traceBuf2.cpp:128-165 | unpacking undoes packing at every width and with either setting |
| Bytes.PackUnpack | src/traceBuf2.cpp:128-165 | packing undoes unpacking |
| Bytes.WordIsWeighedBytes | src/traceBuf2.cpp:128-145 | at every width byte i weighs 256^i, or 256^(w-1-i) when swapped, and a signed word in the upper half is less by 256^w |
| Bytes.TwoByteWords | src/traceBuf2.cpp:128-145 | the value of two bytes in either order, written out with its sign |
| Bytes.FourByteWords | src/traceBuf2.cpp:128-145 | the value of four bytes in either order, written out with its sign |
| Bytes.MixedSwapIsReversal | src/traceBuf2.cpp:136-163 | byte i packed with one setting is byte w-1-i packed with the other, and unpacking swapped is unpacking the bytes in opposite order |
| Bytes.Pack | src/traceBuf2.cpp:148-165 | the packed bytes are written to the front of the buffer and the rest is untouched |
| Bytes.UnpackIntArray | src/traceBuf2.cpp:167-186 | element i is decoded from bytes i*w to (i+1)*w |
| Bytes.UnpackWordArray | src/traceBuf2.cpp:167-186 | the same for bit patterns |
| Bytes.ElementsInOrder | src/traceBuf2.cpp:167-186 | the elements are the consecutive groups of w bytes, in order |
| Bytes.UnpackPackInts | src/traceBuf2.cpp:167-186 | integer arrays survive the wire in either byte order |
| TraceBuf2.UnpackEarthwormMessage | src/traceBuf2.cpp:188-398 | the decoder through its setters yields the decoded trace or the first error, and only the tagged vector holds data |
| TraceBuf2.TraceBuf2.SetData | src/traceBuf2.cpp:406-450 | the other four vectors are emptied and the tag names the new one |
| TraceBuf2.TraceBuf2.SetNumberOfSamples | src/traceBuf2.cpp:696-703 | a negative count is refused; the end time is not refreshed |
| TraceBuf2.CountMatchesPayload | src/traceBuf2.cpp:287-396 | after a successful decode the count is the length of the one active vector |
| TraceBuf2.AcceptedMessages | src/traceBuf2.cpp:207-273 | exactly which messages are accepted: width, float width, positive rate, non-negative count; an unknown type letter is read as native integers; and which failure a refused one reports first |
| TraceBuf2.HeaderNumbers | src/traceBuf2.cpp:275-300 | which bytes of the header make pin, count, start, rate and quality, in either byte order |
| TraceBuf2.SampleBytes | src/traceBuf2.cpp:286-396 | sample i of each format is the weighed sum of its own bytes behind the 64 of the header |
| TraceBuf2.DoublesAreRefused | src/traceBuf2.cpp:320-340 | eight-byte floats are refused in either byte order |
| TraceBuf2.DecodedEndTimeIsStale | src/traceBuf2.cpp:296-300 | the decoded end time is the start time, right exactly for a single sample |
| TraceBuf2.HeaderFieldsDoNotBleed | src/traceBuf2.cpp:278-285 | each name depends only on the bytes of its own header field |
| TraceBuf2.NameFields | src/traceBuf2.cpp:552-607 | each name is the text up to the first NUL of its field, cut to its length |
| TraceBuf2.TextEndsAtNul | src/traceBuf2.cpp:552-607 | a text holds the characters of its field up to the first NUL |
| Wire.DecodeEncode | src/traceBuf2.cpp:188-398 | a message laid out as documented, in either byte order, decodes to exactly its values |
| Wire.EncodedCount | src/traceBuf2.cpp:207-273 | the encoder writes the count most significant byte first exactly in the big-endian order, which its letter names |
| Wire.ByteOrderDoesNotMatter | src/packet.cpp:139-190 | the same values in either byte order are received as the same packet |
| Wire.ReceivedPacketsAreBuilt | src/packet.cpp:139-190 | a received packet is consistent and named, has a rate and as many samples as declared, and sample for sample they are the decoded ones, 16-bit ones promoted and float patterns by their values |
| Wire.CleanMessageArrives | src/traceBuf2.cpp:188-398 | a message with clean codes arrives in either byte order as a packet with those codes, rate and samples, filed under its codes joined by underscores with capitals made small, letter for letter |
| Wire.MakePacket | src/packet.cpp:139-190 | the packet built through its setters, with as many samples as the trace declares, is the specified one, or the first failure |
| Wire.RefusedTraces | src/packet.cpp:139-190 | a trace is refused for the first blank name, then for a missing rate, then for an unhandled precision |
| StreamNames.KeyIsLowerJoin | src/metricsSingleton.cpp:23-37 | a key has four fields: all four parts joined by underscores, with each capital letter moved up 32 code points and the rest unchanged |
| StreamNames.KeyLetters | src/metricsSingleton.cpp:23-37 | the same for any identifier, with three fields if the location is empty |
| StreamNames.KeysSeparateStreams | src/metricsSingleton.cpp:23-37 | an identifier in which no underscore (dot) could be the joining one shares its key (cached name) with no other; one without underscores (dots) in its codes is such |
| StreamNames.UnambiguousIsUnique | src/streamIdentifier.cpp:221-234 | a joined name without such a separator can be cut into four parts in one way only |
| StreamNames.SharedNamesIff | src/metricsSingleton.cpp:23-37 | it is exact: another complete identifier shares the key (cached name) if and only if some underscore (dot) in the codes could be the joining one |
| StreamNames.KeysEqualIffJoinsEqual | src/streamIdentifier.cpp:221-234 | for all identifiers the setters build, keys are equal exactly when the underscore-joined names are |
| StreamNames.UnderscoreCollision | src/metricsSingleton.cpp:31-34 | two identifiers with different cached names and the same key |
| StreamNames.ConvertStringIs | src/streamIdentifier.cpp:20-26 | normalised codes hold no spaces or lower-case letters, and are empty only for strings of spaces |
| StreamNames.ConvertLetterByLetter | src/streamIdentifier.cpp:20-26 | converting removes each space, moves each lower-case letter down 32 code points and keeps the rest in order |
| StreamNames.UpperLetters | src/streamIdentifier.cpp:24 | upper case moves the letters a to z down 32 code points and nothing else |
| StreamNames.BlankCodes | src/streamIdentifier.cpp:10-18 | blank means only space, tab, line feed, vertical tab, form feed and carriage return; a blank location becomes two dashes |
| StreamNames.StreamIdentifier.SetNetwork | src/streamIdentifier.cpp:118-124 | a blank network is refused, any other is normalised, and the cached name follows |
| StreamNames.StreamIdentifier.SetStation | src/streamIdentifier.cpp:138-144 | the same for the station |
| StreamNames.StreamIdentifier.SetChannel | src/streamIdentifier.cpp:158-164 | the same for the channel |
| StreamNames.StreamIdentifier.SetLocationCode | src/streamIdentifier.cpp:178-190 | a blank location code becomes two dashes, so one that was set is never empty |
| StreamNames.StreamIdentifier.SetString | src/streamIdentifier.cpp:32-45 | the cached name is the dotted join once all parts are set, and empty before |
| Selector.CollapseSpaces | src/streamSelector.cpp:290-302 | the in-place loop erases exactly the spaces that follow a space |
| Selector.CollapseNormalises | src/streamSelector.cpp:290-302 | no two adjacent spaces remain, and a text without them is unchanged |
| Selector.CollapseIdempotent | src/streamSelector.cpp:290-302 | collapsing a collapsed text changes nothing |
| Selector.PaddingDoesNotMatter | src/streamSelector.cpp:283-305 | any white space around the same tokens, and one tab or any number of spaces between them, gives the same selector or the same failure |
| Selector.SplitToken | src/streamSelector.cpp:304-305 | a space or a tab ends a token and nothing else does |
| Selector.AcceptedTexts | src/streamSelector.cpp:307-322 | accepted exactly with a two-letter network and a station, and which failure a refused text reports |
| Selector.NetworkAloneFails | src/streamSelector.cpp:317-319 | a network alone is always refused |
| Selector.StreamSelector.FromString | src/streamSelector.cpp:283-360 | the parser's selector is the specified function of the token list |
| Selector.FiveTokensPrint | src/streamSelector.cpp:159-208 | with five tokens the selector prints as location, upper-case channel and .D or .* |
| Selector.FewTokensPrint | src/streamSelector.cpp:323-358 | what fewer tokens print as, with a one-letter fourth token taken as a type |
| Selector.PrintedSelectorInjective | src/streamSelector.cpp:159-208 | with two-character locations the printed selector determines location, channel and type |
| Selector.TypesPrintDifferently | src/streamSelector.cpp:159-208 | a printed selector ends in the letter of its type, and selectors that differ in their type alone print differently |

## Left out

- OpenTelemetry set-up and callbacks (src/otelMetrics.hpp): only that an observer reads one map under the lock.
- The Earthworm ring connection (src/waveRing.cpp) and the SEEDLink client (src/seedLinkClient.cpp): foreign libraries; arrivals are any packets at any time.
- Program options, logging, signals, sleeps, futures, the stop flag and main: a run may end anywhere, which covers stopping.
- src/modules/metrics.cppm: a duplicate of the singleton that is not built.
- IEEE rounding of the published gauges and of float samples, infinities and NaN: sums and gauges are reals.
- Text running past the end of a message buffer that holds no NUL: the model's text ends with the buffer.
- Messages shorter than their declared sample count: the decoder requires the declared samples to be present.
- Wire.MakePacket: traces that hold more samples than they declare, which the decoder never makes and whose samples would be copied past the end of the result.
- Pacing.PaceIffAllWellFormed: passes that take no time at all, in which the clock cannot move and every bound holds.
- Big-endian hosts, and the raw copy of the message that TraceBuf2 keeps.
- Failure to enqueue for want of memory, and 64-bit overflow of counters and of times.
- Packet and identifier objects in the queue: packets are moved, never shared, so the queue holds their values.
- The comparison operators, copies, moves and plain getters: easy members.
