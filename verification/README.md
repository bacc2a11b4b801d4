# PerfLens, verified

PerfLens measures a baseline and a candidate program repeatedly, samples where they spend their time,
and fails a build when a budget is exceeded. This project models its hard core in Dafny and proves what
that core promises. `dafny verify dfyconfig.toml` checks everything.

The four parts and their modules:

1. **Sampling.** The kernel writes variable-length records into a ring and publishes `data_head`; the
   sampler drains them and stores `data_tail` only when a drain is over. Both counters are 64-bit and wrap.
   `Words`, `PageSizing`, `PerfRecord`, `RecordLayout` and `RingBuffer` hold the arithmetic, the byte layout and the copy;
   `RingProtocol` and `Interleaving` the protocol as a state machine over single bytes, single records and
   single counter stores; `Delivery` and `SampleCollector` the collector object, its poll loop and its
   latched failure, with the kernel running between any two of its steps (whether it publishes whole records
   only is a constant, `faithful`, of a collector, and results that need it say so); `Resources` the objects that own
   descriptors and mappings, and the rules for the log of what is asked of the system; `PerfSampler` the
   two-layer lifecycle on top of both.
2. **Running.** `ProcessRunner` is the state machine of the run loop of `ProcessRunner::run`, one function
   per branch; `RunLoop` is the loop as an object with the loop's variables as fields, whose methods take
   exactly the machine's steps and keep the protocol. Every answer of the system (wait results, the clock,
   readiness, signals, failures) is an input. `RunnerProtocol` proves that the log of every run, the kills and
   waits of the child guards included, keeps to a protocol, `RunGuarantees` restates it by positions in the
   log, `RunOutcome` says what a run may end with, and `RunTeardown` what its end does to the collectors.
   `RunDecisions` gives an iteration and the ending as tables on the variables and the answers, `RunCauses`
   says which answers call for which actions, and `RunCollectors` that collectors measure from start to stop.
   `Environments` and `Launcher` start the workload.
3. **Symbolising.** `AddressResolution`, `ProcMaps` with `MapsRoundTrip` and `MapsErrors`, and `SampleGrouping`.
4. **Judging.** `OrderStatistics`, `Statistics`, `Comparison`, `Gate`, `Budgets`, `ProfileComparison`,
   `BenchmarkRunner` and `PerfCounter`, over exact reals.

`Results`, `Sequences`, `Reals`, `Sorting` and `Profiles` are shared. `std::sort` is known only to yield some sorted
permutation, `std::shuffle` only to permute, the square root only to be the nonnegative root.

Six properties do not hold without a condition, and the condition is part of the theorem.

- A ring copy is right for every buffer of a size if and only if the wrap of the counter cannot be seen:
  the size divides 2^64, or the range ends at or before the first multiple of the size past 2^64
  (`RingBuffer.CopyRightExactly`). The constructor's check makes the size divide 2^64.
- A run that timed out, or was interrupted, does not always return with that reason: if its workload is
  seen to end with anything but 0, the run throws the workload's failure. `RunOutcome.TimedOutRunThrows` is
  such a run; `RunOutcome.ServiceOutcome` says exactly when a run returns.
- A process that has been waited for is not always left alone. When the target has exited and the final stop
  of the collectors throws, the guard of the target is still armed and kills and awaits a process id that has
  been reaped, which another process may have got since. `RunGuarantees.StaleRun` is such a run;
  `RunGuarantees.StaleExactly` says that these are the only ones: perf is required, the collectors have been
  started and not stopped, and one that is still held cannot be stopped. In every run whose loop ends with
  the target's exit the guard of the target sends its group kill after the target has been waited for.
- Not every collector measures to the end. A run that throws inside its loop destroys the collectors before it
  waits for the target; the destructor of a running sampler stops it then. `RunTeardown.UnspawnedRun` is such
  a run; `RunTeardown.CutShortExactly` says which ones do.
- The name under which a mapped file is opened is the file's, deleted or not, unless a file that was not
  deleted is itself called as if it had been (`AddressResolution.StrippedExactly`).
- A budget is evaluated only if its metric is in every run of both sides with a defined change; a change
  from a zero median to a nonzero one is undefined and makes the comparison throw
  (`Gate.DecidableExactly`).

## Model

| member | source | states |
|---|---|---|
| RingBuffer.CopyRingBytes | src/perf/perf_sampler.cpp:92-105 | fills an output of any length, also longer than the ring, with the chunks read at the wrapping counter; refuses exactly an empty ring with a nonempty output and then writes nothing |
| RingBuffer.ChunksAreWindow | src/perf/perf_sampler.cpp:92-105 | the bytes copied are ring[(offset + i) mod size] for every i, also past 2^64, whenever the wrap cannot be seen |
| RingBuffer.CopyRightExactly | src/perf/perf_sampler.cpp:100 | the copy is right for all buffers of a size if and only if the size divides 2^64 or the range ends by the wrap point |
| Words.SlotIsMod | src/perf/perf_sampler.cpp:100 | the slot of a position is its remainder by the size |
| PageSizing.BitTrick | src/perf/perf_sampler.cpp:148 | n & (n - 1) is zero exactly for the powers of two |
| PageSizing.CheckedPagesDivideCounter | src/perf/perf_sampler.cpp:148-156 | page counts that pass the constructor's check make ring sizes that divide 2^64 |
| PerfRecord.ParseOfEncode | src/perf/perf_sampler.cpp:107-132 | parsing undoes encoding for SAMPLE, LOST and every other record, with any trailing bytes |
| PerfRecord.ParseAccepts | src/perf/perf_sampler.cpp:107-132 | a byte string is accepted if and only if it is the encoding of some record |
| RecordLayout.ParseReads | src/perf/perf_sampler.cpp:107-132 | a byte string is accepted if and only if it is as long as its header says and long enough for its type; a SAMPLE's instruction pointer, process, thread and time and a LOST's count are the little-endian numbers at their documented places |
| RecordLayout.EncodedType | src/perf/perf_sampler.cpp:113-130 | the type bytes of encoded records: 9 for a SAMPLE, 2 for a LOST, and neither for another |
| PerfRecord.EncodeOfUnparse | src/perf/perf_sampler.cpp:107-132 | encoding undoes parsing |
| PerfRecord.FrameAppend | src/perf/sample_collector.cpp:124-152 | draining up to one head and then on to a later one is draining to the later one at once |
| PerfRecord.FrameOfEncodeAll | src/perf/sample_collector.cpp:130-148 | draining the encodings of any records gives back what they mean, in order, and no error |
| PerfRecord.CleanPrefixIsWhole | src/perf/sample_collector.cpp:130-148 | a prefix of whole records that drains without error ends between two of them |
| PerfRecord.WholeExactly | src/perf/sample_collector.cpp:130-148 | a byte string drains without error if and only if it is the encodings of records, none longer than the ring |
| RecordLayout.FaultBehind | src/perf/sample_collector.cpp:130-148 | behind any whole records, what stops a drain is decided by the bytes left: none, fewer than a header, a size smaller than a header or larger than what is left or the ring, or a SAMPLE or LOST that is too short |
| PerfRecord.FrameNeverMissizes | src/perf/sample_collector.cpp:136-141 | the parser's two header-size errors cannot come out of a drain |
| RingProtocol.WriteByteIsSafe | tests/sample_collector_test.cpp:34-41 | a byte written into free space disturbs nothing that is published and not yet given back |
| RingProtocol.PublishIsSafe | tests/sample_collector_test.cpp:34-41 | publishing extends what the ring holds by exactly the bytes written |
| RingProtocol.NextRecordFrames | src/perf/sample_collector.cpp:130-148 | one turn of the loop on the wrapped ring is one turn of the decoder on the unwrapped bytes |
| RingProtocol.ReleaseAgrees | src/perf/sample_collector.cpp:149-151 | giving back a part leaves the rest of the stream in the ring |
| Interleaving.StepKeepsInv | src/perf/sample_collector.cpp:124-152 | every step of kernel and sampler keeps ring, stream and decoded records in agreement |
| Interleaving.ExactlyOnce | src/perf/sample_collector.cpp:124-152 | in every state of every interleaving, the records decoded followed by those still encoded in the ring are all records produced, each once, in order, wherever the counters started |
| Interleaving.SnapshotUndisturbed | src/perf/sample_collector.cpp:125-151 | from its head snapshot to its end, no byte of a drain's range changes and data_tail does not move |
| Interleaving.DrainCatchesUp | src/perf/sample_collector.cpp:124-152 | in every interleaving, a drain that ends has given back everything that was published when it began |
| SampleCollector.ReadRecord | src/perf/sample_collector.cpp:131-141 | reads a record's header and body out of the ring, or says which check failed |
| SampleCollector.Collector.TakeRecords | src/perf/sample_collector.cpp:130-148 | with the kernel running between any two records, the loop takes exactly the records of the snapshot, keeps those of the target and adds up the losses modulo 2^64 |
| SampleCollector.Collector.Drain | src/perf/sample_collector.cpp:124-152 | what the head snapshot found decides what is collected and how the drain ends; data_tail moves, to that head, only if it ends well; an error is the one of the bytes the kernel published, and a kernel that publishes whole records causes none |
| SampleCollector.Collector.Scan | src/perf/sample_collector.cpp:105-117 | a broken descriptor fails the worker, a ring with data or a hang-up is drained of all it had published, a hung-up one is disabled, nothing is miscounted; it fails only for a broken descriptor or for what the kernel published |
| SampleCollector.Collector.Collect | src/perf/sample_collector.cpp:88-122 | a worker that ends well has decoded everything published before the stop request, exactly once, and no poll failed and no enabled descriptor was reported broken before the wake-up; every such poll before the wake-up is answered, and each enabled ring it reports readable or hung up is consumed, before the next poll, up to what was published when it returned; it fails only with its cause: a poll that fails or a descriptor that breaks before the wake-up, or a published stream that is not whole records; without such a cause, on a kernel that publishes whole records, it ends well |
| SampleCollector.Collector.Start | src/perf/sample_collector.cpp:29-56 | starts at most once, never after a stop, and not when masking or thread creation fails |
| SampleCollector.Collector.Stop | src/perf/sample_collector.cpp:58-86 | latches the first failure, which has its cause in a poll, a descriptor, the published bytes or the wake-up, and fails whenever a poll before the wake-up failed or reported an enabled descriptor as broken; reports the failure on every call, changes nothing when called again, leaves the samples in the order of time, and is complete when it returns normally, which it does on a kernel that publishes whole records unless a poll, a descriptor or the wake-up fails |
| SampleCollector.Collector.Destroy | src/perf/sample_collector.cpp:21-27 | stops, which joins the worker, and only then closes the eventfd |
| SampleCollector.Collector.Samples | src/perf/sample_collector.cpp:154-166 | gives samples exactly after a stop without failure, else says which of the two is missing; what it gives is in the order of time and, of all records handed back to the kernel, exactly the samples of the target |
| SampleCollector.Collector.LostSamples | src/perf/sample_collector.cpp:168-171 | under the same condition, gives the losses of all records handed back to the kernel, summed modulo 2^64 |
| SampleCollector.StoppedIsComplete | src/perf/sample_collector.cpp:58-122 | after a normal stop, every record published before the request was decoded once; how often each sample of the target was collected is how often it occurs in those records, no other process has any, and the losses are the sum of theirs modulo 2^64 |
| SampleCollector.StreamsAreRecords | src/perf/sample_collector.cpp:58-122 | on a kernel that publishes whole records there are records of each ring to which this applies, and those published before the stop request are exactly a prefix of them |
| Delivery.ReadStable | src/perf/sample_collector.cpp:135-141 | a record read while the kernel runs is the record that the snapshot saw |
| Delivery.DrainKeepsCount | src/perf/sample_collector.cpp:143-151 | a whole drain keeps the count of all rings' samples and losses exact |
| PerfSampler.CheckCpus | src/perf/perf_sampler.cpp:142-147 | accepts exactly distinct nonnegative CPUs |
| PerfSampler.Create | src/perf/perf_sampler.cpp:134-204 | succeeds if and only if the arguments pass every check, the page and the data together stay below 2^64, every ring is mapped with a page in front of the data asked for, and the eventfd opens; else the error is that of the first check, ring or descriptor that fails, and every descriptor and mapping has been released exactly once; a construction that succeeds over rings that hold no more than their size has nothing lost or counted yet |
| PerfSampler.OpenRings | src/perf/perf_sampler.cpp:177-201 | opens and maps one ring after the other up to the first that fails, which is destroyed at once, and reports what is wrong with it; what is held afterwards is exactly what the finished rings own |
| PerfSampler.OpenRing | src/perf/perf_sampler.cpp:178-196 | the ring owns exactly what was acquired for it, also when it is left half-way |
| PerfSampler.SizeFits | src/perf/perf_sampler.cpp:156-158 | the check on the number of pages passes if and only if page and data together stay below 2^64 |
| Resources.PerfRing.Destroy | src/perf/perf_sampler.cpp:39-49 | unmaps and closes exactly what the ring still owns |
| Resources.PerfRing.AssignDescriptor | src/perf/sample_collector.hpp:25-30 | takes over what the other owns, leaves it with nothing, and closes what was owned before |
| Resources.DestroyAll | src/perf/perf_sampler.cpp:51-52 | destroying the vector of rings releases exactly what they own, and nothing else that is open |
| PerfSampler.Sampler.Start | src/perf/perf_sampler.cpp:211-228 | a second start changes nothing; a start fails exactly if masking, thread creation or enabling a ring fails, and then everything is stopped and the failure latched; after one that succeeds every ring has been enabled and none disabled since |
| PerfSampler.Sampler.Stop | src/perf/perf_sampler.cpp:58-82 | disables every ring and joins the worker whatever fails; latches and reports the first failure: an earlier one, else a ring that cannot be disabled, else the collector's, which has its cause; it fails whenever a poll failed or a descriptor broke before the wake-up; a normal return leaves nothing behind that was published before the stop, and comes about on a kernel that publishes whole records if nothing else fails |
| PerfSampler.Sampler.Destroy | src/perf/perf_sampler.cpp:83-89 | disables the rings and joins the worker, then closes the eventfd, then unmaps and closes the rings; everything is released exactly once |
| PerfSampler.Lifetime | src/perf/perf_sampler.cpp:39-90 | for every sequence of calls and every failure: the first failure reported is reported by every later stop and accessor; at the end every descriptor, the eventfd's too, and every mapping has been released exactly once, none under a running worker and none before the kernel was asked to disable it; the samples and losses that the accessors gave are all that was published before the stop, exactly; and on a kernel that publishes whole records, if nothing goes wrong in the calls, they are given after every stop |
| RunLoop.Runner.Step | src/process/process_runner.cpp:750-850 | an iteration of a run that is in order leaves it in order, or ends it with a legal log, for every answer of the system and any clock reading that is not too late; every variable afterwards is what the table of decisions says, and an error exactly the one it says; the workload starts only when the startup delay is over and the probed port answers; every action was called for by the answers; a run that goes on unstopped had no signal, no elapsed timeout and no used-up readiness timeout; one that is being stopped keeps its flags |
| RunLoop.Runner.Loops | src/process/process_runner.cpp:741-850 | so does the whole loop, over any number of iterations: the run stays in order, and each action was called for in one of them |
| RunLoop.Runner.Conclude | src/process/process_runner.cpp:852-946 | from the target's exit on, the run ends with both processes waited for and both guards done, except that the guard of the target acts on a reaped process if and only if the final stop of the collectors throws; it returns the outcome or throws the error that the table of conclusions gives |
| RunLoop.RunProcess | src/process/process_runner.cpp:663-947 | a whole run does at most once what may be done once, leaves no process behind, kills within the bounds of the graces, signals, starts and reaps only what some iteration's answers call for, grants each stop its own grace, and returns normally only with an outcome that its log justifies and with its collectors started and stopped |
| RunnerProtocol.RunIsLegal | src/process/process_runner.cpp:663-871 | the log of every run, whatever the system answers, follows the protocol of collectors, starts, stop signals, deadlines, kills, reaping, destructors and child guards to its end, and only a run whose final stop throws adds the kill and the wait of a reaped target |
| RunnerProtocol.KillComes | src/process/process_runner.cpp:837-843 | a run still in its loop longer than both graces and a sleep after the first stop signal has sent the kill |
| RunDecisions.Decisions | src/process/process_runner.cpp:750-851 | every iteration from every state: which error it throws, if any, and else the value of every variable of the loop, as one table on the state and the answers: starting before giving up, the workload's end before a signal, a signal before the timeout, and the kill when the grace is used up |
| RunDecisions.NewlyCaused | src/process/process_runner.cpp:760-836 | the workload is newly held only if the startup delay is over and the probed port answers; readiness times out only if it is late and not ready; the run times out only if its timeout has passed and no signal has come; it is interrupted only by a received signal |
| RunDecisions.Conclusions | src/process/process_runner.cpp:852-946 | every run that leaves its loop returns the outcome or throws the error of one table: a required collector that cannot be stopped, the child's error, a lifecycle failure, a required reading, the metrics, an odd status, in this order |
| RunCauses.RunCaused | src/process/process_runner.cpp:750-851 | each signal, deadline, start and reaping in the log of any run was called for by one iteration's answers: received signals are passed on as they are, SIGTERM needs a late service, the workload's end or a passed timeout, the workload a ready service |
| RunCauses.RunGraced | src/process/process_runner.cpp:770-836 | each deadline in the log of any run follows a stop signal and lies after it by the termination grace for an interruption or a timeout and by the service's shutdown grace for a readiness timeout or a workload that has ended |
| RunGuarantees.BoundedEscalation | src/process/process_runner.cpp:772-843 | the loop sends SIGKILL to the target at most once, after a stop signal, never before the deadline in force, and within both graces and two sleeps of the first stop signal; the guards' kills come without one |
| RunGuarantees.NothingTwice | src/process/process_runner.cpp:665-810 | collectors start, stop and are destroyed at most once, and are neither started nor stopped after that; the workload starts at most once, nothing starts after a stop signal, each guard kills its group once; once a process has been waited for or its guard has acted, the loop neither signals nor reaps it, and nobody kills or awaits a reaped workload |
| RunGuarantees.EverythingReaped | src/process/process_runner.cpp:122-144 | in every ending the target has been waited for and its guard has acted, and the same holds of the workload if and only if it was started |
| RunGuarantees.SignalsPassedOn | src/process/process_runner.cpp:821-843 | in every run, a stop signal or kill to the target while the workload runs is followed at once by the same signal to the workload, unless the run gives up there and the guard kills the workload's group |
| RunGuarantees.CollectorsOutlast | src/process/process_runner.cpp:665-709 | the loop and the final stop stop a collector only after it was started and the workload or the target has ended |
| RunGuarantees.StaleExactly | src/process/process_runner.cpp:122-144 | a run kills or awaits the target's process after it was waited for if and only if the loop ended with its exit, perf is required, the collectors were started and not stopped, and one still held fails to stop |
| RunGuarantees.StaleRun | src/process/process_runner.cpp:852-864 | such a run: the target exits at once and the counters cannot be stopped |
| RunTeardown.CutShortExactly | src/process/process_runner.cpp:628-740 | the destructor of a started sampler stops it before anything it measures has ended if and only if the run throws inside its loop, holding a sampler that was started and not stopped, without having started a workload; the same for the counters, also when the run throws before its loop |
| RunTeardown.UnspawnedRun | src/process/process_runner.cpp:760-772 | such a run: the service is ready, the sampler starts, and the workload cannot be spawned |
| RunCollectors.RunCollected | src/process/process_runner.cpp:663-740 | in every run that returns normally, a collector that is destroyed at its end had been started if and only if there was something to measure, the target of a run without a service or a workload that was started, and had then been stopped |
| RunOutcome.IterationsConsistent | src/process/process_runner.cpp:760-835 | over every run at most one flag is up, and completion and failure are what the workload's exit says |
| RunOutcome.NothingMissed | src/process/process_runner.cpp:760-836 | an iteration that stops nothing means no signal, no elapsed timeout and no used-up readiness timeout |
| RunOutcome.FlagsAreFirstComeOnly | src/process/process_runner.cpp:821-829 | a signal or a timeout during stopping is not recorded |
| RunOutcome.ServiceOutcome | src/process/process_runner.cpp:853-946 | when a service run returns normally, if and only if; its reason; success is a workload seen to exit 0 and no flag |
| RunOutcome.PlainOutcome | src/process/process_runner.cpp:863-946 | the same for a run without a service |
| RunOutcome.RunJustified | src/process/process_runner.cpp:780-946 | over every run, a normal return of a service run means that the workload was not seen to end with anything but 0, success that it was seen to end with 0; without a service the exit code, or the signal of a signalled end, is the one the target was reaped with; the signal of a timeout is the one that ended the target, else 0, and that of an interruption the one received |
| RunOutcome.TimedOutRunThrows | src/process/process_runner.cpp:783-806 | a timed-out service run whose workload dies of its SIGTERM throws that death |
| Environments.ApplyOverrides | src/process/process_runner.cpp:436-449 | inherited entries that no override names keep their order; each overridden name is set once, to its last value; entries of other names are as many as before; it fails exactly if a name is empty or has an equals sign, with the first such name |
| Environments.SetsIsNamed | src/process/process_runner.cpp:440-441 | an entry starts with name= exactly if its name is that name |
| Launcher.SearchPath | src/process/process_runner.cpp:487-509 | tries the candidates of the split path in order up to the first success or fatal error, and when none is left fails with EACCES if and only if one was denied |
| Launcher.SearchedOnce | src/process/process_runner.cpp:487-509 | that description admits only one list of attempts and one result |
| Launcher.JoinOfSplit | src/process/process_runner.cpp:490-508 | splitting at colons loses nothing and leaves no colon in a piece |
| Launcher.PathFollowsOverride | src/process/process_runner.cpp:480-486 | the search follows the last override of PATH |
| Launcher.StartWorkload | src/process/process_runner.cpp:428-518 | a command with a slash is started as it is, any other along the PATH of the environment that the workload gets, or /bin:/usr/bin without one: an element d is tried as d/command, an empty one as the command, errors 2, 13 and 20 are passed over, and 13 wins at the end; the environment is the inherited one under the overrides and the metrics file |
| AddressResolution.ElfAddress | src/symbols/symbolizer.cpp:47-68 | the first loaded segment that holds the offset decides |
| AddressResolution.ResolveAddress | src/symbols/symbolizer.cpp:70-83 | the first executable file mapping that covers the address decides |
| AddressResolution.ResolutionUndoesLoading | src/symbols/symbolizer.cpp:39-83 | for any bias, every file-backed executable instruction pointer resolves to its file, deleted or not, and to itself minus the bias modulo 2^64, also in a mapping that shows only a piece of its segment |
| AddressResolution.PiecesShow | src/symbols/symbolizer.cpp:70-83 | the mapping of whole pages that a loader makes for a segment, and every piece it is split into later, shows the segment in the sense needed there |
| AddressResolution.StrippedExactly | src/symbols/symbolizer.cpp:39-45 | the path opened is the file's, also when it was deleted, if and only if it is not a live file whose own name ends like a deleted one's |
| AddressResolution.ResolvesExactly | src/symbols/symbolizer.cpp:39-83 | an address resolves if and only if it lies in an executable mapping of a file, and the first such mapping's file can be read and has the byte in a loaded segment; so to nothing outside all of them, in an unreadable file and between the segments |
| ProcMaps.ParseProcMaps | src/symbols/symbolizer.cpp:166-195 | parses line by line and stops at the first number that is none or does not fit |
| MapsRoundTrip.MapsRoundTrips | src/symbols/symbolizer.cpp:166-195 | printing any list of mappings in the format of proc(5) and parsing it gives the list back |
| MapsRoundTrip.ParseDistributes | src/symbols/symbolizer.cpp:170-193 | parsing whole lines followed by more text is parsing both |
| MapsRoundTrip.SkippedExactly | src/symbols/symbolizer.cpp:177-183 | exactly the lines with fewer than five words, a fifth that does not begin with a number below 2^64, or a first without a dash are passed over |
| MapsRoundTrip.SkippedCountsForNothing | src/symbols/symbolizer.cpp:170-193 | wherever such a line stands, the text parses, or fails to, as if it were not there |
| MapsRoundTrip.HexRoundTrip | src/symbols/symbolizer.cpp:186-188 | every 64-bit value printed in hexadecimal is read back |
| MapsErrors.NumeralIsRead | src/symbols/symbolizer.cpp:186-188 | an optional sign and prefix and hexadecimal digits of either case, followed by anything else, are read as their value, negated modulo 2^64 after a minus sign, or do not fit |
| MapsErrors.OnlyNumeralsAreRead | src/symbols/symbolizer.cpp:186-188 | nothing else is read: what is not such a numeral is an invalid argument |
| MapsErrors.LineIsWords | src/symbols/symbolizer.cpp:177-192 | a line that is not passed over is its words: the first number of start, end and offset that cannot be read is its error, else they are the mapping's, which is executable if the third letter of the second word is x |
| MapsErrors.BadLineEndsParse | src/symbols/symbolizer.cpp:170-193 | wherever a line with a bad number stands, the parse fails with that error, whatever follows |
| SampleGrouping.PairLines | src/symbols/symbolizer.cpp:146-161 | one name per address: the first line of each complete pair, else ?? |
| SampleGrouping.GroupByAddress | src/symbols/symbolizer.cpp:211-220 | counts the samples of each module and address, and those that do not resolve |
| SampleGrouping.NameModule | src/symbols/symbolizer.cpp:223-236 | asks for a module's addresses in ascending order and merges their counts by file name and function |
| SampleGrouping.SymbolizeSamples | src/symbols/symbolizer.cpp:209-251 | two-stage grouping is direct counting: distinct keys, exact positive counts, every key that occurs, largest first; each sample is listed under the last component of its file's path and under line 2k of what addr2line printed for that file, where k is its address's place among the file's addresses in ascending order and line 2k + 1 is there as well; no name, an empty one and ?? are [unknown], and so is a sample that does not resolve |
| SampleGrouping.SamplesConserved | src/symbols/symbolizer.cpp:209-251 | the counts add up to the number of samples |
| OrderStatistics.AscendingUnique | src/analysis/statistics.cpp:49-50 | a sample has one sorted arrangement, whatever sorting algorithm is used |
| OrderStatistics.OrderedMonotone | src/analysis/statistics.cpp:49-59 | domination of unsorted samples, strict or not, is domination of every order statistic |
| Statistics.Summarize | src/analysis/statistics.cpp:44-70 | refuses an empty sample; else n times the mean is the sum of the values, n times the squares of mean and deviation together the sum of their squares, the variation times the mean's magnitude 100 deviations, or 0 for mean 0, and minimum, maximum and median are the ends and the middle, or the midpoint of the two middle ones, of the values in order |
| Statistics.DescribeForgetsOrder | src/analysis/statistics.cpp:44-70 | the summary does not depend on the order of the measurements |
| Statistics.WithinRange | src/analysis/statistics.cpp:52-59 | minimum and maximum are attained bounds, and mean and median lie between them |
| Statistics.DeviationBounds | src/analysis/statistics.cpp:56-66 | the squared deviation is at most (max - mean)(mean - min), the deviation at most half the range and at least the distance of mean and median |
| Comparison.Collect | src/analysis/statistics.cpp:24-36 | a metric is summarised exactly if there are runs and each of them has it |
| Comparison.SummarizeRuns | src/analysis/statistics.cpp:72-132 | every metric that every run has is summarised, no other; an empty list of runs is refused |
| Budgets.SummariesMeasure | src/analysis/statistics.cpp:72-132 | each of the eighteen summaries is there if and only if all runs have its field, and measures the field's values |
| Comparison.EvaluateThresholds | src/analysis/comparison.cpp:202-234 | reports the first limit that cannot be evaluated, else all violations |
| Gate.DecidableExactly | src/analysis/comparison.cpp:202-219 | the limits can be evaluated if and only if each configured one is nonnegative and its metric is in every run of both sides with a defined change |
| Gate.ViolationsExact | src/analysis/comparison.cpp:220-233 | of any list of comparisons, exactly the violating ones are reported, once, in order |
| Gate.ReportedExactly | src/analysis/comparison.cpp:99-163 | of two lists of runs, exactly the metrics whose directed change exceeds their limit are reported, without duplicates, in the fixed order |
| Gate.NeverBlamed | src/analysis/comparison.cpp:17-22 | for every budgeted metric, higher or lower better, and any limit: if under some pairing no candidate value is worse than its nonnegative baseline value by more than the limit, the metric is not reported |
| Gate.AlwaysBlamed | src/analysis/comparison.cpp:17-22 | if under some pairing every candidate value is worse by more than the limit and the baseline's median is positive, it is reported |
| Budgets.SettledKeepsBudgets | src/analysis/comparison.cpp:67-84 | the five limits guard wall time, maximum resident size, 99th percentile, throughput (lower is worse) and processor time per operation: each is reported, with its limit and the change of the medians, if and only if the medians differ by more than the limit in the bad direction, never if under some pairing of the runs no candidate is beyond the limit, always if all are and the baseline's median is positive; nothing else is reported |
| Budgets.AllEvaluableIs | src/analysis/comparison.cpp:202-219 | the configured limits can be evaluated if and only if each is nonnegative, all runs have its field, and the candidate's median is 0 when the baseline's is |
| Budgets.FirstComplaintIs | src/analysis/comparison.cpp:202-219 | else the error is about the first one that is negative or cannot be evaluated, in the order runtime, 99th percentile, throughput, processor time, resident size |
| Budgets.ComparisonsShow | src/analysis/comparison.cpp:99-163 | each of the eighteen comparisons is there if and only if all runs of both sides have its field, with the medians of both, their change in percent unless it is undefined, and its direction |
| ProfileComparison.AggregateProfile | src/analysis/comparison.cpp:54-65 | the tally of each function over all runs, and the total |
| ProfileComparison.CompareProfiles | src/analysis/comparison.cpp:165-200 | one entry for each module and function that a run of either side lists, whose two percentages of the sides' totals are 100 times the samples of that function in all runs, with their difference, largest first |
| ProfileComparison.SharesConserved | src/analysis/comparison.cpp:179-195 | each side's percentages add up to 100, or to 0 without samples, and the changes to 0 when both have samples |
| ProfileComparison.SwapNegates | src/analysis/comparison.cpp:165-200 | swapping the sides negates every change |
| BenchmarkRunner.BalancedOrder | src/analysis/benchmark_runner.cpp:28-37 | for any shuffle each side occurs exactly count times |
| BenchmarkRunner.ExecuteAll | src/analysis/benchmark_runner.cpp:107-119 | each side gets its own results in the order of execution; the first execution that throws or does not exit with 0 ends it with its error: an interrupted one with 128 plus its signal, or 130 without one, any other with 2 |
| BenchmarkRunner.Analyse | src/analysis/benchmark_runner.cpp:121-126 | returns normally if and only if every configured limit can be evaluated on its own field, and then decides exactly; else with the first objection |
| BenchmarkRunner.RunComparison | src/analysis/benchmark_runner.cpp:94-127 | each side gets exactly repeat measured runs after the warm-up, the kth of a side being what its kth execution measured; the comparisons and the five budgets are those of these runs' fields, and the violations are exactly the metrics over budget; an error is that of the first failing execution, warm-up first, or else of the first limit that cannot be evaluated |
| PerfCounter.ScaleBounds | src/perf/perf_counter.cpp:64-79 | rejected exactly when the counter did not run; the raw count if it ran whenever it was enabled; else raw times enabled over running, which is at least the raw count, rounded to the nearest integer, halves up, while that fits, and the largest value exactly from half a unit below it on |
| PerfCounter.ScaleMonotone | src/perf/perf_counter.cpp:64-79 | more counts or enabled time never give less and more running time never more, also across the branch that does not scale |

## Left out

- Weak memory: loads and stores of `data_head` and `data_tail` are atomic, sequentially consistent steps, and the fence is not modelled.
- SampleCollector.Collector.TakeRecords: the header and the body of one record are read in one step of the worker; `Interleaving.SnapshotUndisturbed` is why the kernel could not change them in between.
- SampleCollector.Collector.Collect: the worker's whole run is executed where it is joined, the stop request being one of its events; the given polls are those that it makes until it sees the request.
- PerfSampler.Lifetime: move construction and move assignment of a whole sampler are not modelled.
- Resources.DisableAll: the log says which rings the kernel was asked to disable, whether or not it did.
- PerfCounter.ScaleCounter: exact arithmetic, where the program uses long double.
- Statistics.Summarize: exact reals, so rounding, NaN and infinity do not occur.
- Comparison.SummarizeRuns: a summary is a map from an enumeration of the metrics, where the program has one field for each; labels and units are not modelled.
- ProfileComparison.AggregateProfile: sample counts do not wrap at 2^64.
- ProcessRunner.DropCollectors: a collector that fails to start or to stop has stopped itself and is dropped on the spot, which the log does not show.
- RunLoop.RunProcess: an unbounded wait is a run whose given answers end before its loop does; reading /proc, measured times, counters' values, the map capture and the failure to release the start barrier are not modelled, and time points do not overflow.
- SampleGrouping.SymbolizeSamples: what addr2line prints is an oracle on the module and its addresses; starting it is not modelled.
- AddressResolution.ElfAddress: a file is its readable program headers.
- Validation of run options, the readiness probe, opening hardware counters, command-line parsing, JSON, reports and workload metrics files: straight-line code that would add only easy members.
