# busperf bus-activity analysis, modelled in Dafny

busperf reads the waveform of a simulation and reports how busy each bus was. For single-channel buses it works cycle by cycle:
- one clock-edge loop samples the bus just before every counted rising edge;
- a classifier per bus kind turns the sampled signals into a cycle type (AXI ready/valid, APB, AHB, credit/valid, or a Python plugin);
- the statistics group the cycles into bursts, delays between transactions and absorbed pauses, and bucket them by powers of two.

For AXI buses busperf also works transaction by transaction. It rebuilds every transaction from the handshake events of the address, data and response channels, then records the latencies in a multi-channel usage:
- the Python plugins match read transactions, the full one per ID, the lite one with a single transaction outstanding;
- the Rust analyzer matches reads and writes, with the iterators that produce the event times;
- the older Rust and Python analyzers work on the raw value changes.

The report prints one table of single-channel buses and one of multi-channel buses, as text or CSV.

The model keeps the source's form:
- Matching engines, iterators, accumulators and drivers are methods. Each method's `ensures` ties its result or new state to specification functions, or states the source's promise outright.
- Classifiers, lookups, bucket arithmetic and labels are functions with lemmas.
- Every revision in the repository that the analysis passes through is modelled beside the current one:
  - `src/analyzer*`, `src/bus/` and `src/bus_usage.rs` are the earlier Rust code;
  - `src/analyze*`, `src/show/` and `libbusperf/` are the current one.

Files, one module each:
- `wrappers`, `text`, `traces`: `Option`/`Result`/`Outcome`, decimal rendering, time-stamped traces and their sample lookups.
- `bus`, `cycle_type`: signal values, signal paths and configuration parsing (`src/bus.rs`), and the cycle types.
- `axi_sampling`, `inflight`, `read_matching`, `resets`: what the AXI engines share:
  - attribute sampling;
  - the per-ID queues of transactions in flight;
  - the read-matching invariant;
  - the reset cursor.
- `axi_full_rd_python`, `axi_lite_rd_python`, `axi_read`, `axi_write`, `axi_iterators`, `axi_valid_changes`: the AXI matching engines and their cursors.
- `buckets`, `cycle_usage`, `multi_usage`, `legacy_usage`: the statistics of both revisions.
- `classifiers`, `drivers`, `text_output`: per-cycle classification, the single-bus loops with the analyzer builders, and the report.

## Model

| member | source | states |
|---|---|---|
| AxiFullRdPython.Beat | plugins/python/AXIFullRdAnalyzerPython.py:62-82 | reference definition of one data beat: StopIteration when no ID or last flag is sampled, AssertionError when its ID has nothing in flight, TypeError when no response is sampled; otherwise a last beat pops and completes the head transaction of its ID and any other beat marks its first data |
| AxiFullRdPython.BeatRaises | plugins/python/AXIFullRdAnalyzerPython.py:63-82 | AssertionError exactly when the beat's ID has nothing in flight, TypeError exactly when it has but no response is sampled, StopIteration exactly when no ID, or past that no last flag, is sampled; a beat that raises changes nothing, one that does not touches only its own ID |
| AxiFullRdPython.Drain | plugins/python/AXIFullRdAnalyzerPython.py:49-82 | reference definition of the inner loop: beats before the next address event are taken in turn; the first beat past the reset raises NameError when something is in flight and clears the dictionary otherwise; the cursor only moves forward |
| AxiFullRdPython.Open | plugins/python/AXIFullRdAnalyzerPython.py:44-82 | reference definition of one address event: StopIteration when no ID is sampled at it; otherwise its transaction joins the queue of that ID, with the next address event as next time, and the beats before that event are drained; the beat cursor never moves back |
| AxiFullRdPython.Rounds | plugins/python/AXIFullRdAnalyzerPython.py:37-90 | reference definition of the address loop: a hang when the reset cursor is stuck, StopIteration when no ID is sampled, otherwise enqueue and drain; at the end, the records and the issue times still in flight |
| AxiFullRdPython.TakeBeat | plugins/python/AXIFullRdAnalyzerPython.py:49-82 | the beat does exactly what Beat says; when it raises nothing it keeps every matching invariant, and it never raises IndexError or NameError |
| AxiFullRdPython.AtReset | plugins/python/AXIFullRdAnalyzerPython.py:52-60 | a beat past the reset raises NameError (the undefined `time_table`) exactly when something is in flight; otherwise the dictionary is cleared and the invariants hold |
| AxiFullRdPython.DrainBeats | plugins/python/AXIFullRdAnalyzerPython.py:49-82 | the loop ends in exactly the state Drain gives; it keeps the invariants, never raises IndexError, and raises NameError only at a beat later than the pending reset |
| AxiFullRdPython.DrainOne | plugins/python/AXIFullRdAnalyzerPython.py:49-82 | one beat of the inner loop either ends it in the state Drain gives or leaves a state from which Drain gives the same result |
| AxiFullRdPython.Step | plugins/python/AXIFullRdAnalyzerPython.py:44-82 | an address event ends in the state Open gives (opening its transaction under the ID in effect, then draining), keeping the invariants for one more address event |
| AxiFullRdPython.Round | plugins/python/AXIFullRdAnalyzerPython.py:37-82 | one pass of the address loop leaves Rounds unchanged from the next event on, with the invariants kept, or stops with exactly the result Rounds gives, a stop Stopped allows |
| AxiFullRdPython.Match | plugins/python/AXIFullRdAnalyzerPython.py:35-90 | the result is Run; on success every record is a transaction issued on `ar` and closed by a last beat with its ID, where the latest address event before the beat has no reset between it and the beat; records are per ID in issue order and overall in beat order; every address event is either completed once or listed unfinished |
| AxiFullRdPython.Analyze | plugins/python/AXIFullRdAnalyzerPython.py:20-94 | IndexError exactly when the clock list is empty; otherwise Run with the last clock sample as end of time, with the guarantees of Match, NameError only when some beat lies past a reset or past the end, and a hang only for an address later than end of time plus one |
| AxiFullRdPython.DrainCompletes | plugins/python/AXIFullRdAnalyzerPython.py:49-82 | the inner loop loses no last beat: the records it adds close exactly the beats it took that are flagged last, and it stops only at the end of the beats, at the next address event or past the reset |
| AxiFullRdPython.BeatCloses | plugins/python/AXIFullRdAnalyzerPython.py:63-82 | a beat whose ID has a non-empty queue, with a sampled response and the last flag set, pops the head of that queue and records it completed at the beat with that response |
| AxiFullRdPython.OpenCompletes | plugins/python/AXIFullRdAnalyzerPython.py:44-82 | when an address event raises nothing, the records it adds close exactly the last beats it drains, and after the last address event the beats left start at a cut |
| AxiFullRdPython.RoundsCompleteStep | plugins/python/AXIFullRdAnalyzerPython.py:37-90 | one address event of a finished run, followed by the rest of the run, loses no last beat |
| AxiFullRdPython.RoundsComplete | plugins/python/AXIFullRdAnalyzerPython.py:37-90 | the address loop loses no last beat up to where a finished run stops taking beats |
| AxiFullRdPython.RunRecordsEveryLastBeat | plugins/python/AXIFullRdAnalyzerPython.py:35-90 | a finished analysis records exactly the beats flagged last up to a cut, in beat order; every beat from the cut on lies at or past the end of the trace or past a reset after the last address event |
| AxiFullRdPython.CompletesAcrossReset | plugins/python/AXIFullRdAnalyzerPython.py:41-82 | with address events at 10 and 15 under one ID, a reset at 12 and a last beat at 20, the plugin completes the transaction issued at 10 across the reset |
| AxiFullRdPython.CompletesBeforeIssue | plugins/python/AXIFullRdAnalyzerPython.py:49-82 | a last beat at 5 completes the transaction issued at 10: data before issue is recorded |
| AxiLiteRdPython.LiteRounds | plugins/python/AXILiteRdAnalyzerPython.py:26-57 | reference definition of the loop: a hang when the reset cursor is stuck, StopIteration when no beat is left; the next beat answers the event when it comes before the next reset (NameError when another beat precedes the next event, TypeError when no response is sampled), otherwise the event goes unanswered |
| AxiLiteRdPython.LiteRound | plugins/python/AXILiteRdAnalyzerPython.py:26-57 | the event is answered exactly when the next beat comes before the next reset, and then by that beat alone with the record it produces; otherwise nothing changes; the reset cursor ends where Advanced puts it; LiteRounds is unchanged from the next event on, or the stop is exactly LiteRounds' result and one LiteStopped allows |
| AxiLiteRdPython.LiteTake | plugins/python/AXILiteRdAnalyzerPython.py:33-54 | a beat before the next reset answers the address event: the one record added is the event with the beat as first data, last data and response time, the response sampled at it and the next event as next time; the loop goes on as LiteRounds says, and an error is the stop LiteRounds gives |
| AxiLiteRdPython.LiteAnswer | plugins/python/AXILiteRdAnalyzerPython.py:33-54 | a beat with no reset since the event and no other beat before the next event, with a sampled response, extends the invariant by the record that answers the event |
| AxiLiteRdPython.LiteMatch | plugins/python/AXILiteRdAnalyzerPython.py:24-59 | the result is LiteRun; on success each record pairs an address event with the first beat not yet used and before the reset, with the response sampled at that beat; records are in address order with distinct beats in beat order, and there are no more records than address events or beats |
| AxiLiteRdPython.LiteAnalyze | plugins/python/AXILiteRdAnalyzerPython.py:13-59 | IndexError exactly when the clock list is empty; otherwise LiteRun with the last clock sample as end of time, with the guarantees of LiteMatch |
| AxiLiteRdPython.LiteRoundsInTurn | plugins/python/AXILiteRdAnalyzerPython.py:26-57 | from any point of the loop, a finished run keeps the records closing the data beats in turn |
| AxiLiteRdPython.LiteRunInTurn | plugins/python/AXILiteRdAnalyzerPython.py:24-59 | no beat is skipped: in a finished analysis the `q`-th record closes the `q`-th data beat |
| AxiLiteRdPython.LiteAnswersBeforeIssue | plugins/python/AXILiteRdAnalyzerPython.py:26-54 | an address event at 10 is answered by the beat at 5, before it |
| AxiRead.OnBeat | src/analyze/analyzer/axi_analyzer.rs:293-335 | reference definition of one R beat: an unreadable `rid` fails, an ID with nothing in flight makes an orphan, an unreadable `rlast` fails, `rlast` 0 marks first data, `rlast` 1 completes the head with the response, which must be readable |
| AxiRead.OnBeatFails | src/analyze/analyzer/axi_analyzer.rs:293-335 | an unreadable `rid` is an error exactly then; an orphan exactly when the ID has nothing in flight; for an ID in flight an unreadable `rlast`, or `rresp` on a last beat, is an error exactly then, and otherwise the beat is taken; only a taken beat changes the state, and only its own ID |
| AxiRead.Drain | src/analyze/analyzer/axi_analyzer.rs:273-337 | reference definition of the R loop: beats before the next AR are taken in turn; the first past the reset moves everything in flight to the unfinished list; an orphan or an error ends the loop after its beat |
| AxiRead.Rounds | src/analyze/analyzer/axi_analyzer.rs:258-348 | reference definition of `'transaction_loop`: a hang when the reset cursor is stuck, an error for an unreadable `arid`, otherwise enqueue and drain; at the end, the records, the dropped and pending issue times and the orphans |
| AxiRead.TakeBeat | src/analyze/analyzer/axi_analyzer.rs:273-337 | the beat does exactly what OnBeat says; unless it fails it keeps the invariant; a failure names this beat; an orphan leaves the state unchanged and names a beat whose ID was readable |
| AxiRead.AtReset | src/analyze/analyzer/axi_analyzer.rs:276-291 | a beat past the reset moves every pending issue time to the unfinished list and clears the dictionary, keeping the invariant |
| AxiRead.DrainBeats | src/analyze/analyzer/axi_analyzer.rs:273-337 | the R loop ends in exactly the state Drain gives; it keeps the invariant and the orphan list sound, or fails with an error that names an event whose attribute is missing |
| AxiRead.DrainOne | src/analyze/analyzer/axi_analyzer.rs:273-337 | one beat of the R loop either ends it in the state Drain gives or leaves a state from which Drain gives the same result |
| AxiRead.Round | src/analyze/analyzer/axi_analyzer.rs:258-272 | one AR leaves Rounds unchanged from the next AR on, with the invariant kept and `next_rst` past the AR, or stops with exactly the result Rounds gives, a stop Stopped allows |
| AxiRead.Match | src/analyze/analyzer/axi_analyzer.rs:242-356 | the result is Run; on success each record is an AR completed by an R beat with `rlast` and the same ID, where the latest AR before the beat has no reset between it and the beat, per ID in order; every AR is completed once or listed unfinished; every R-without-AR warning names a beat whose ID was readable |
| AxiRead.CalculateFull | src/analyze/analyzer/axi_analyzer.rs:242-356 | `calculate_full` from its signals is Run: the guarantees of Match, every `Err` names an event whose sampled attribute is missing, and a hang only for an AR after the last index plus one |
| AxiRead.DrainAccounts | src/analyze/analyzer/axi_analyzer.rs:273-337 | the R loop loses no beat flagged last: each closes a record or is reported as an orphan, and the loop stops only at the end, at the next AR, past the reset or after an orphan |
| AxiRead.DrainTaken | src/analyze/analyzer/axi_analyzer.rs:293-337 | a beat the R loop takes accounts for itself, and the loop goes on from the next beat in the state OnBeat gives |
| AxiRead.DrainAccountsStep | src/analyze/analyzer/axi_analyzer.rs:273-337 | an R loop whose first beat is taken loses no beat flagged last from there on |
| AxiRead.OnBeatAccounts | src/analyze/analyzer/axi_analyzer.rs:293-335 | an R beat keeps the records made so far and, when taken with the last flag, closes a record at that beat |
| AxiRead.RoundAccounts | src/analyze/analyzer/axi_analyzer.rs:258-337 | one AR's R loop in a run that is done loses no last beat, and after the last AR the beats left start at a cut |
| AxiRead.RoundsAccountStep | src/analyze/analyzer/axi_analyzer.rs:258-348 | one AR of a run that is done, followed by the rest of the run, loses no last beat |
| AxiRead.RoundsAccount | src/analyze/analyzer/axi_analyzer.rs:258-348 | `'transaction_loop` loses no beat flagged last up to where a run that is done stops taking beats |
| AxiRead.RunAccountsEveryLastBeat | src/analyze/analyzer/axi_analyzer.rs:242-356 | in a run that is done, every R beat flagged last up to a cut closes a record or is reported as an orphan; every beat from the cut on lies at or past the end, past a reset after the last AR, or right after an orphan |
| AxiRead.CompletesAcrossReset | src/analyze/analyzer/axi_analyzer.rs:258-337 | with ARs at 10 and 15 under one ID, a reset at 12 and a last beat at 20, the AR at 10 is completed across the reset and the one at 15 is unfinished |
| AxiRead.CompletesBeforeIssue | src/analyze/analyzer/axi_analyzer.rs:273-337 | a last beat at 5 completes the AR at 10: data before issue is recorded |
| AxiRead.BeatCloses | src/analyze/analyzer/axi_analyzer.rs:293-335 | an R beat flagged last whose ID has a transaction in flight pops the head of that ID's queue and records it completed at the beat with the sampled response |
| AxiRead.DiscardOrphans | src/analyze/analyzer/axi_analyzer.rs:200-206 | every R beat before the next AR is skipped and reported, and the cursor stops at the first beat not before the next AR |
| AxiRead.FirstFrom | src/analyze/analyzer/axi_analyzer.rs:200-206 | the first position at or after the cursor whose beat is at or after the bound, with every beat before it below the bound |
| AxiRead.LiteRounds | src/analyze/analyzer/axi_analyzer.rs:191-237 | reference definition of `calculate_lite`: a hang when the reset cursor is stuck; an AR takes the next R beat when it comes before the next reset (an error when `rresp` is unreadable) and discards the beats up to the next AR; otherwise the AR is unfinished |
| AxiRead.LiteMatchPreserves | src/analyze/analyzer/axi_analyzer.rs:196-229 | an AR answered by the next beat, with the later beats before the next AR discarded, keeps the lite invariant (records in order, starts and beats accounted for) |
| AxiRead.LiteSkipPreserves | src/analyze/analyzer/axi_analyzer.rs:230-236 | an AR with no beat before the reset is added to the unfinished list and the invariant holds |
| AxiRead.LiteRound | src/analyze/analyzer/axi_analyzer.rs:191-237 | one AR is answered exactly when the next R beat comes before the reset, and then by that beat with the record it produces; otherwise it is listed unfinished; LiteRounds is unchanged from the next AR on, or the stop is exactly LiteRounds' result and one LiteStopped allows |
| AxiRead.LiteTake | src/analyze/analyzer/axi_analyzer.rs:195-228 | an AR whose next R beat comes before the reset takes it: exactly one record is added, for that AR with that beat as response time; the later beats before the next AR become orphans and the cursor stops at the first beat at or after that AR; the loop goes on as LiteRounds says, and an unreadable `rresp` is the error LiteRounds gives |
| AxiRead.LiteFinish | src/analyze/analyzer/axi_analyzer.rs:180-240 | at the end every AR is answered or unfinished, and the answered beats with the discarded ones make up a prefix of the R beats |
| AxiRead.CalculateLite | src/analyze/analyzer/axi_analyzer.rs:180-240 | the result is LiteRun; on success each record pairs an AR with the next R beat and its sampled `rresp`; records come in AR order; every AR is answered once or listed unfinished; every discarded beat lies after a matched beat and before the following AR |
| AxiRead.LiteAnswersBeforeIssue | src/analyze/analyzer/axi_analyzer.rs:191-229 | a lite AR at 10 is answered by the R beat at 5, before it |
| AxiWrite.Fill | src/analyze/analyzer/axi_analyzer.rs:629-656 | reference definition of the W loop: it never moves the cursor back and keeps start and next; it stops at a beat past the reset, fails only after an unreadable `wlast`, naming that beat |
| AxiWrite.TakeData | src/analyze/analyzer/axi_analyzer.rs:629-656 | the W loop ends exactly as Fill says: first data is the first beat taken, every beat taken is not after the reset, beats before the last one are not `wlast`, and it ends at a `wlast` beat (which becomes last data), at a beat past the reset, at an unreadable `wlast` (error naming that beat) or when W runs out |
| AxiWrite.FillFrom | src/analyze/analyzer/axi_analyzer.rs:629-656 | the W loop, one beat at a time, ends exactly as Fill says |
| AxiWrite.FillFacts | src/analyze/analyzer/axi_analyzer.rs:629-656 | Fill takes only beats at or before the reset, all but the last without `wlast`; first data is the first beat taken unless already set; last data is set only by a final beat with `wlast`, and is left unset by meeting the reset or running out of W beats |
| AxiWrite.OnResp | src/analyze/analyzer/axi_analyzer.rs:659-716 | reference definition of one B beat: an unreadable `bid` fails, an ID with nothing in flight makes an orphan, an unreadable `bresp` fails, a head transaction without `wlast` or first data fails, otherwise the head is popped and completed |
| AxiWrite.OnRespFails | src/analyze/analyzer/axi_analyzer.rs:681-716 | an unreadable `bid` is an error exactly then; a response without command exactly when the ID has nothing in flight; for an ID in flight an unreadable `bresp`, or a head transaction without first or last data, is an error exactly then; only a completion changes the state, and only its own ID |
| AxiWrite.Drain | src/analyze/analyzer/axi_analyzer.rs:659-717 | reference definition of the B loop: beats before the next AW in turn; the first past the reset moves everything in flight to the unfinished list; an error ends the loop, orphans do not |
| AxiWrite.Open | src/analyze/analyzer/axi_analyzer.rs:617-717 | reference definition of one AW: enqueue, fill with W beats, then, unless the W loop met the reset or failed, the B loop |
| AxiWrite.Rounds | src/analyze/analyzer/axi_analyzer.rs:608-740 | reference definition of `'transactions_loop`: a hang when the reset cursor is stuck, an error for an unreadable `awid`, otherwise Open; at the end, records, dropped and pending issue times, and orphans |
| AxiWrite.Complete | src/analyze/analyzer/axi_analyzer.rs:701-716 | the record a B response produces keeps the transaction's start, next, first and last data and takes the response time and value |
| AxiWrite.TakeResp | src/analyze/analyzer/axi_analyzer.rs:659-716 | the beat does exactly what OnResp says; a completion keeps the invariant; an orphan leaves the state unchanged and names this beat; a failure is one ErrorOk describes, naming this beat when `bid` or `bresp` is unreadable |
| AxiWrite.AtReset | src/analyze/analyzer/axi_analyzer.rs:630-643 | at a reset the pending issue times move to the unfinished list and the dictionary is cleared, keeping the invariant |
| AxiWrite.DrainResponses | src/analyze/analyzer/axi_analyzer.rs:659-717 | the B loop ends in exactly the state Drain gives; it keeps the invariant or fails with an error ErrorOk describes |
| AxiWrite.DrainOne | src/analyze/analyzer/axi_analyzer.rs:659-717 | one beat of the B loop either ends it in the state Drain gives or leaves a state from which Drain gives the same result |
| AxiWrite.Serve | src/analyze/analyzer/axi_analyzer.rs:617-717 | an AW ends in exactly the state Open gives (pushed under its ID, filled with W beats, followed by the B loop); the invariant holds for one more AW or the error is one ErrorOk describes |
| AxiWrite.Round | src/analyze/analyzer/axi_analyzer.rs:608-617 | one pass of `'transactions_loop` leaves Rounds unchanged from the next AW on, with the invariant kept, or stops with exactly the result Rounds gives, a stop Stopped allows |
| AxiWrite.Match | src/analyze/analyzer/axi_analyzer.rs:591-740 | the result is Run; on success every record is an AW whose data beats end in `wlast` and whose B response has the same ID, where the latest AW before the response has no reset between it and the response, per ID in issue order; every AW is completed once or listed unfinished; records and orphan warnings account for a prefix of the B beats |
| AxiWrite.AwLoop | src/analyze/analyzer/axi_analyzer.rs:608-718 | the AW loop stops with exactly Run, as Stopped allows, or runs every AW with the invariant and Run equal to its records, dropped and pending issue times, and orphans |
| AxiWrite.CalculateFull | src/analyze/analyzer/axi_analyzer.rs:591-740 | `calculate_full` of the write side from its signals is Run: the guarantees of Match, errors that name the event or transaction at fault, a hang only past the last index plus one |
| AxiWrite.DrainAccounts | src/analyze/analyzer/axi_analyzer.rs:659-717 | the B loop loses no response: each B beat taken closes a record or is reported as an orphan, and it stops only at the end, at the next AW or past the reset |
| AxiWrite.DrainAccountsStep | src/analyze/analyzer/axi_analyzer.rs:659-717 | a B loop whose first beat is taken without error loses no response from there on |
| AxiWrite.OnRespAccounts | src/analyze/analyzer/axi_analyzer.rs:681-716 | a B beat keeps the records made so far; a completion closes a record at that beat, and an orphan is reported at that beat |
| AxiWrite.RoundDoneAccounts | src/analyze/analyzer/axi_analyzer.rs:608-717 | one AW of a run that is done: the run goes on from the next AW, no response is lost on the way, and after the last AW the B beats left start at a cut |
| AxiWrite.RoundsAccountStep | src/analyze/analyzer/axi_analyzer.rs:608-740 | one AW of a run that is done, followed by the rest of the run, loses no response |
| AxiWrite.RoundsAccount | src/analyze/analyzer/axi_analyzer.rs:608-740 | `'transactions_loop` loses no response up to where a run that is done stops taking B beats |
| AxiWrite.RunAnswersEveryResponse | src/analyze/analyzer/axi_analyzer.rs:591-740 | in a run that is done, every B beat up to a cut closes a record or is reported as an orphan; every beat from the cut on lies at or past the end, or the last AW's B or W beats ran past a reset after it |
| AxiWrite.CompletesAcrossReset | src/analyze/analyzer/axi_analyzer.rs:617-717 | with AWs at 10 and 15 under one ID, a reset at 12, W beats at 11 and a response at 20, the AW at 10 is completed across the reset and the one at 15 is unfinished |
| AxiWrite.RespCloses | src/analyze/analyzer/axi_analyzer.rs:681-716 | a B beat whose ID has a head transaction that saw `wlast` pops it and records it completed at the beat with the sampled response |
| AxiWrite.LiteMatchPreserves | src/analyze/analyzer/axi_analyzer.rs:546-576 | an AW served by the next W and B beats keeps the lite invariant (the n-th record took the n-th W and the n-th B beat) |
| AxiWrite.LiteSkipPreserves | src/analyze/analyzer/axi_analyzer.rs:577-583 | an AW without W and B beats before the reset is listed unfinished and the invariant holds |
| AxiWrite.LiteRounds | src/analyze/analyzer/axi_analyzer.rs:542-584 | reference definition of `calculate_lite`: a hang when the reset cursor is stuck; an AW takes the next W and B beats when both come before the next reset (an error when `bresp` is unreadable); otherwise the AW is unfinished |
| AxiWrite.LiteRound | src/analyze/analyzer/axi_analyzer.rs:542-584 | one AW is served exactly when the next W and B beats both come before the reset, with the record they produce; otherwise it is listed unfinished and nothing else changes; LiteRounds is unchanged from the next AW on, or the stop is exactly LiteRounds' result |
| AxiWrite.CalculateLite | src/analyze/analyzer/axi_analyzer.rs:530-586 | the result is LiteRun; on success the n-th record takes the n-th W and the n-th B beat with the `bresp` sampled there, records come in AW order, every AW is served once or listed unfinished, and nothing is reported as an orphan |
| AxiWrite.LiteFinish | src/analyze/analyzer/axi_analyzer.rs:530-586 | at the end every AW is recorded or unfinished, exactly once; the records are sound, took the W and B beats in order, and start in AW order |
| AxiWrite.LiteAnswersBeforeIssue | src/analyze/analyzer/axi_analyzer.rs:542-576 | a lite AW at 10 is served by the W beat at 5 and the B beat at 6, both before it |
| AxiIterators.Inside | src/analyze/analyzer/axi_analyzer.rs:76 | every change kept lies strictly inside the interval |
| AxiIterators.InsideMembers | src/analyze/analyzer/axi_analyzer.rs:76 | a change is kept exactly when it is a change of the signal strictly inside the interval |
| AxiIterators.InsideOrdered | src/analyze/analyzer/axi_analyzer.rs:76 | the kept changes stay in time order |
| AxiIterators.CountReset | src/analyze/analyzer/axi_analyzer.rs:73-84 | `count_reset` returns half the reference total of released-minus-asserted time over the changes inside the interval (or panics exactly when the reference panics), and never a negative count |
| AxiIterators.SumResets | src/analyze/analyzer/axi_analyzer.rs:76-83 | the loop computes the reference total ResetTotal of the changes, halved |
| AxiIterators.ResetStep | src/analyze/analyzer/axi_analyzer.rs:77-81 | one change of the loop keeps the running sum plus the total of the rest fixed |
| AxiIterators.ResetPanics | src/analyze/analyzer/axi_analyzer.rs:77 | a change whose type test panics makes the total panic |
| AxiIterators.ResetTotalBounded | src/analyze/analyzer/axi_analyzer.rs:73-84 | with alternating assert/release changes the total does not panic and lies between 0 and the span from the start to the end |
| AxiIterators.CountResetBounded | src/analyze/analyzer/axi_analyzer.rs:73-84 | with alternating changes the reset count lies between 0 and half the interval length |
| AxiIterators.EdgesAreHighTimes | src/analyze/analyzer/axi_analyzer.rs:888-907 | every edge the rising-edge iterator yields is the time of a change to 1 |
| AxiIterators.ClockEdges | src/analyze/analyzer/axi_analyzer.rs:888-907 | on a clock (alternating one-bit levels) the yielded edges are exactly the changes to 1 after the first change |
| AxiIterators.EdgesIncreasing | src/analyze/analyzer/axi_analyzer.rs:888-907 | on time-ordered changes the edges come out in strictly increasing order |
| AxiIterators.EdgesAfter | src/analyze/analyzer/axi_analyzer.rs:888-907 | every edge is later than any bound the changes exceed |
| AxiIterators.ClockStep | src/analyze/analyzer/axi_analyzer.rs:896-898 | on a clock a change is to 0 exactly when the next change is to 1 |
| AxiIterators.RisingSignalIterator.constructor | src/analyze/analyzer/axi_analyzer.rs:859-866 | a new iterator has nothing put back and all edges of the signal still to come |
| AxiIterators.RisingSignalIterator.Next | src/analyze/analyzer/axi_analyzer.rs:888-907 | `next` yields the put-back edge if any, else the next edge; the edges still to come lose exactly the one yielded, and `None` only when none remain |
| AxiIterators.RisingSignalIterator.FindNonConsuming | src/analyze/analyzer/axi_analyzer.rs:868-882 | the edges skipped are all not after the bound; the edge found is the first later one and is put back so the next `next` yields it again; `None` when the edges run out |
| AxiIterators.RisingSignalIterator.Collect | src/analyze/analyzer/axi_analyzer.rs:885-907 | draining the iterator yields exactly the edges still to come |
| AxiIterators.FirstHigh | src/analyze/analyzer/axi_analyzer.rs:931 | the index found holds a change to 1 and no change between the start and it is to 1 |
| AxiIterators.Resume | src/analyze/analyzer/axi_analyzer.rs:983-991 | skipping the changes that are not to 1 and taking the next one lands just past the first change to 1, returning its time, or at the end with nothing |
| AxiIterators.SampledHighInEffect | src/analyze/analyzer/axi_analyzer.rs:87-99 | a signal sampled high at `t` has value 1 in effect one index before `t`, which is where the analyzer samples attributes |
| AxiIterators.ReadyValidTransactionIterator.constructor | src/analyze/analyzer/axi_analyzer.rs:919-949 | `new` starts at the later of the first rises of ready and of valid, or at the end of time when either never rises |
| AxiIterators.ReadyValidTransactionIterator.NextEdge | src/analyze/analyzer/axi_analyzer.rs:956-965 | takes clock edges until one is later than the current time, or reports that the clock ran out |
| AxiIterators.ReadyValidTransactionIterator.Next | src/analyze/analyzer/axi_analyzer.rs:955-1012 | `next` yields a time later than the previous one, taken from the clock edges or the end of time; before the end of time both ready and valid are sampled high there (a handshake); `None` marks the iterator finished |
| AxiIterators.ReadyValidTransactionIterator.Settle | src/analyze/analyzer/axi_analyzer.rs:966-1011 | the drop-and-rise loop ends at a time where both signals are high, or finishes |
| AxiIterators.ReadyValidTransactionIterator.Overtake | src/analyze/analyzer/axi_analyzer.rs:982-1006 | the signal whose next change is earlier skips its changes away from 1 and takes its next rise; a rise at or after the current time moves the time to the first clock edge after it, or to the end time, consuming the edges passed; no rise ends the iteration; the time never goes back |
| AxiIterators.ReadyValidTransactionIterator.Realign | src/analyze/analyzer/axi_analyzer.rs:998-1003 | after a rise, the current time moves to the first clock edge after it, or to the end of time |
| AxiIterators.ReadyValidTransactionIterator.Collect | src/analyze/analyzer/axi_analyzer.rs:952-1012 | draining the iterator yields strictly increasing times after the start, each a clock edge or the end of time, and each one before the end of time a handshake |
| AxiIterators.RiseTime | src/analyze/analyzer/axi_analyzer.rs:931-940 | the time of the first change to 1, or the default when there is none |
| AxiIterators.SettledHigh | src/analyze/analyzer/axi_analyzer.rs:1007-1011 | when the earlier of the next ready and valid changes is not before `t`, both signals are sampled high at `t` |
| AxiSampling.BitsAt | src/analyze/analyzer/axi_analyzer.rs:555-566 | the bit string of the change in effect at an index, and nothing when no change is in effect there |
| AxiSampling.GetIdValue | src/analyze/analyzer/axi_analyzer.rs:86-89 | `get_id_value` reads the bit string of the change in effect one index before the event (index 0 for an event at 0), and nothing when none is in effect |
| AxiSampling.GetLogicValue | src/analyze/analyzer/axi_analyzer.rs:91-94 | `get_logic_value` reads the one-bit level in effect one index before the event, and nothing when none is in effect |
| AxiSampling.SampledBeforeEvent | src/analyze/analyzer/axi_analyzer.rs:86-99 | on a time-sorted signal both samplers return the value of the last change strictly before the event |
| Traces.LatestAtOrBeforeSpec | plugins/python/AXIFullRdAnalyzerPython.py:30-32 | the lookup over a reversed sample list (`next(filter(v[0] <= t, ...))`) finds nothing exactly when every sample is later than `t`, and otherwise the last sample at or before `t` |
| Traces.EarliestAtOrBeforeSpec | plugins/python/AXIFullRdAnalyzerPython.py:71 | the same lookup over the unreversed response list finds nothing exactly when every sample is later than `t`, and otherwise the first sample at or before `t` |
| Traces.EarliestIsFirstSample | plugins/python/AXIFullRdAnalyzerPython.py:71 | on a time-sorted list the response lookup ignores every sample but the first, whatever the beat time |
| Traces.LatestIsInEffect | plugins/python/AXIFullRdAnalyzerPython.py:44 | on a time-sorted list the ID lookup returns the sample in effect at `t` |
| Traces.PeekAfter | plugins/python/AXIFullRdAnalyzerPython.py:45 | `ar.peek(time_end)`: the next address time, or the end of time after the last one |
| Traces.SatPred | src/analyze/analyzer/axi_analyzer.rs:88 | `saturating_sub(1)`: the index before `t`, or 0 |
| Resets.AdvanceReset | plugins/python/AXIFullRdAnalyzerPython.py:41-42 | `while next_rst < time: next_rst = next(rst, time_end + 1)` passes only resets before the address time; it never ends exactly when the time is past `time_end + 1` and the resets are used up; otherwise the address time is not after the pending reset |
| Resets.Advanced | plugins/python/AXIFullRdAnalyzerPython.py:41-42 | reference definition of the reset cursor: it never moves back, passes only resets before the address time, is stuck exactly when the time is past `time_end + 1` with the resets used up, and otherwise stops at a `next_rst` at or after the time |
| Resets.ResetFree | src/analyze/analyzer/axi_analyzer.rs:276 | a beat not past the pending reset has no reset between its address event and itself |
| Inflight.Opened | src/analyze/analyzer/axi_analyzer.rs:108-117 | a new transaction carries its start and next time and has no data yet |
| Inflight.MarkFirst | src/analyze/analyzer/axi_analyzer.rs:318-320 | the first beat sets first data; later beats leave it alone |
| Inflight.PendingAppend | src/analyze/analyzer/axi_analyzer.rs:264-266 | appending to an ID's queue adds exactly that issue time to the transactions in flight |
| Inflight.PendingPop | src/analyze/analyzer/axi_analyzer.rs:321-323 | popping the head of an ID's queue removes exactly its issue time from those in flight |
| Inflight.PendingNewKey | src/analyze/analyzer/axi_analyzer.rs:267-270 | inserting a new ID adds its queue's issue times to those in flight |
| Inflight.EnqueueFirst | src/analyze/analyzer/axi_analyzer.rs:267-270 | the first transaction of an empty dictionary makes a queue of one under its ID |
| Inflight.EnqueueBehindOnly | src/analyze/analyzer/axi_analyzer.rs:265-266 | a transaction for the only ID in flight joins the back of its queue |
| Inflight.PendingEnqueue | src/analyze/analyzer/axi_analyzer.rs:264-271 | `push_back` (or insert of a new queue) adds exactly the new issue time to those in flight |
| Inflight.EnqueueKeysOk | src/analyze/analyzer/axi_analyzer.rs:264-271 | the dictionary keys stay exactly the listed IDs, each listed once |
| ReadMatching.OpenedAt | src/analyze/analyzer/axi_analyzer.rs:263-271 | address event `i` opens a transaction starting at it whose next time is the next address event or the end of time |
| ReadMatching.EnqueuePreserves | src/analyze/analyzer/axi_analyzer.rs:263-271 | opening a transaction for an address event keeps the shared read-matching invariant (queues in issue order, records sound and ordered, every address event accounted for) |
| ReadMatching.MarkPreserves | src/analyze/analyzer/axi_analyzer.rs:318-320 | a beat that hits the head of its ID's queue without `rlast` keeps the invariant |
| ReadMatching.Complete | src/analyze/analyzer/axi_analyzer.rs:321-335 | the record a closing beat produces keeps start and next, takes the beat as response and last data, and first data from the transaction (or the beat itself when it is the first) |
| ReadMatching.CompleteRecordOk | src/analyze/analyzer/axi_analyzer.rs:321-335 | the produced record satisfies RecordOk: issued on the address channel and closed by an `rlast` beat with the same ID and its sampled response; the latest address event before the beat has no reset between it and the beat (a reset between the issue and that event is not excluded) |
| ReadMatching.CompleteOrder | src/analyze/analyzer/axi_analyzer.rs:321-335 | completing the head keeps records per ID in issue order and overall in beat order |
| ReadMatching.CompletePreserves | src/analyze/analyzer/axi_analyzer.rs:321-335 | a beat that closes the head of its ID's queue keeps the invariant |
| ReadMatching.SkipPreserves | src/analyze/analyzer/axi_analyzer.rs:298-313 | a beat consumed without touching any queue (an R without AR) keeps the invariant |
| ReadMatching.DropPreserves | src/analyze/analyzer/axi_analyzer.rs:276-291 | clearing the dictionary at a reset moves everything in flight to the dropped issue times and keeps the invariant |
| ReadMatching.AllSeen | src/analyze/analyzer/axi_analyzer.rs:339-348 | once every address event is seen, each is completed, dropped or still in flight, exactly once |
| AxiWrite.CompletePreserves | src/analyze/analyzer/axi_analyzer.rs:681-716 | a B beat that pops the head of its ID's queue and completes it keeps the write invariant |
| AxiWrite.CompleteRecordOk | src/analyze/analyzer/axi_analyzer.rs:701-716 | a B beat that completes the head transaction of its ID, which saw `wlast`, gives a record RecordOk accepts, with first data set |
| AxiWrite.OrphanPreserves | src/analyze/analyzer/axi_analyzer.rs:681-694 | a B beat whose ID has nothing in flight is reported and the invariant holds |
| AxiWrite.EnqueuePreserves | src/analyze/analyzer/axi_analyzer.rs:617-623 | pushing the transaction an AW opens keeps the write invariant |
| AxiWrite.DropPreserves | src/analyze/analyzer/axi_analyzer.rs:630-643 | clearing the dictionary at a reset keeps the invariant, moving everything pending to the dropped issue times |
| AxiValidChanges.Times | src/analyzer/axi_analyzer.rs:55 | the change times of a trace, one per change, in order |
| AxiValidChanges.ShiftTwo | src/analyzer/axi_analyzer.rs:54-60 | `create_next_transaction_iter`: zipped with the changes, change `k` is paired with the time of change `k + 2`, or the last clock time |
| AxiValidChanges.FirstRise | src/analyzer/axi_analyzer.rs:150-153 | the `find` over the data valid changes returns the first change to "1" at (or strictly after) the address time, and no earlier change qualifies |
| AxiValidChanges.Delay | src/analyzer/axi_analyzer.rs:163 | `next - resp_time` as a `u32` in a release build: the result lies in `[0, 2^32)` and is congruent to the difference; the Python plugins keep the plain difference |
| AxiValidChanges.ActiveTimes | src/analyzer/axi_analyzer.rs:135-141 | the times of the reset changes to the active value, no more of them than changes |
| AxiValidChanges.ActiveTimesIncreasing | src/analyzer/axi_analyzer.rs:135-141 | the reset times of a time-ordered trace strictly increase |
| AxiValidChanges.ResetFrom | src/analyzer/axi_analyzer.rs:147-149 | the first reset at or after `t`, or the last time when none is left |
| AxiValidChanges.ResetFromSkips | src/analyzer/axi_analyzer.rs:147-149 | resets already passed, all earlier than `t`, do not change the first reset at or after `t` |
| AxiValidChanges.AdvanceCursor | src/analyzer/axi_analyzer.rs:147-149 | `while next_reset < time` moves the cursor to the first reset at or after the address time, and loops forever exactly when no reset is left and the last time is before the address time |
| AxiValidChanges.ReadStep | src/analyzer/axi_analyzer.rs:143-165 | an address change contributes a record only when it is to "1"; the record starts there and uses the first data as first data, last data and response time |
| AxiValidChanges.ReadRowsStop | src/analyzer/axi_analyzer.rs:143-165 | a read run never lacks a clock once started, and after a panic or hang later changes do not matter |
| AxiValidChanges.ReadCalculate | src/analyzer/axi_analyzer.rs:142-165 | the zipped loop with its reset cursor computes exactly the reference fold ReadRows over all address changes |
| AxiValidChanges.ReadRound | src/analyzer/axi_analyzer.rs:144-164 | one pass computes the reference step ReadStep for that change and keeps the reset cursor behind the change |
| AxiValidChanges.ReadAdvance | src/analyzer/axi_analyzer.rs:144-164 | one pass of the loop in a run still going yields the reference fold ReadRows over one more change, and keeps the reset cursor behind the change |
| AxiValidChanges.ReadRowsAnswer | src/analyzer/axi_analyzer.rs:143-165 | every read record starts at a change of the address valid to "1" and is answered by the first data change to "1" after it, with the response in effect then |
| AxiValidChanges.OnesBefore | src/analyzer/axi_rd_analyzer.rs:81-84 | the number of address changes to "1" among the first `n`, at most `n` |
| AxiValidChanges.ReadRowsCount | src/analyzer/axi_rd_analyzer.rs:81-97 | without reset skipping, a finished run has exactly one record per address change to "1" |
| AxiValidChanges.ReadRowsOrdered | src/analyzer/axi_analyzer.rs:143-165 | record starts strictly increase and none is later than the last change looked at |
| AxiValidChanges.ReadStepDrops | src/analyzer/axi_analyzer.rs:155-157 | with reset skipping, a change to "1" whose data is found is dropped exactly when the first reset at or after it comes before that data, and recorded otherwise |
| AxiValidChanges.MaxByKey | src/analyzer/axi_analyzer.rs:240-249 | `max_by_key` returns the index of the last change with the largest key (the time of a change away from "1" inside `[time, resp_time]`, else 0) |
| AxiValidChanges.MaxByKeyAllZero | src/analyzer/axi_analyzer.rs:240-249 | when no data change in the window leaves "1", the last data change of the whole trace is taken as last data |
| AxiValidChanges.MaxByKeyInWindow | src/analyzer/axi_analyzer.rs:240-249 | otherwise the last data is the latest change away from "1" inside the window |
| AxiValidChanges.WriteStep | src/analyzer/axi_analyzer.rs:228-255 | an address change contributes a record only when it is to "1"; the record's first data is not before its start, its response is after it, and its delay is a `u32`; it never hangs |
| AxiValidChanges.WriteRowsStop | src/analyzer/axi_analyzer.rs:228-256 | a write run never lacks a clock or hangs, and after a panic later changes do not matter |
| AxiValidChanges.WriteRound | src/analyzer/axi_analyzer.rs:229-255 | one pass of the write loop extends the reference fold WriteRows by one change, or panics exactly where it does |
| AxiValidChanges.WriteCalculate | src/analyzer/axi_analyzer.rs:228-256 | the write loop computes exactly the reference fold WriteRows over all address changes |
| AxiValidChanges.WriteRowsCount | src/analyzer/axi_wr_analyzer.rs:75-103 | without a panic there is one write record per address change to "1", each answered after its start |
| AxiValidChanges.CountResetAll | src/analyzer/axi_analyzer.rs:38-49 | the first `count_reset` returns half the reference total over every change of the reset from time 0 |
| AxiValidChanges.AllResetTotalBounded | src/analyzer/axi_analyzer.rs:38-49 | with alternating reset and release the total lies between 0 and the time up to the last change |
| AxiValidChanges.PythonReadWithReset | plugins/python/AXIRdAnalyzerPython.py:8-34 | no clock exactly when the clock list is empty; otherwise the run equals ReadRows with reset edges at "1", data strictly after the address, reset skipping and plain delays |
| AxiValidChanges.PythonReadNoReset | plugins/python/AXIRdAnalyzer.py:8-29 | the same without looking at the reset |
| AxiValidChanges.RustReadCalculate | src/analyzer/axi_analyzer.rs:113-169 | the reset count is half the reference total; no clock exactly when the clock has no values; otherwise ReadRows with data at or after the address, reset skipping and `u32` delays |
| AxiValidChanges.RustReadAnalyze | src/analyzer/axi_rd_analyzer.rs:38-115 | the inline reset count is half the reference total; the run is ReadRows without reset skipping and with `u32` delays |
| AxiValidChanges.RustWriteCalculate | src/analyzer/axi_analyzer.rs:205-260 | no clock exactly when the clock has no values; otherwise the run equals the reference fold WriteRows |
| Bus.GetValue | src/bus.rs:271-290 | `get_value`: a level exactly for one-bit two- and four-state values; a two-state bit is 0 or 1 and a four-state bit is X or Z; the level matches the value's bit string |
| Bus.IsValueOfType | src/bus.rs:292-307 | `is_value_of_type` panics exactly for a multi-bit four-state or a nine-state value, and is true exactly for a one-bit two-state value at the asked level |
| Bus.RstActiveValue | src/bus.rs:214-220 | the reset level is V0 exactly for 0, V1 exactly for 1, and X (never Z) for anything else |
| Bus.DotPrefixSnoc | src/bus.rs:27-29 | writing one more scope appends it followed by "." |
| Bus.JoinDotLast | src/bus.rs:25-33 | scopes each followed by "." and then the name is the dot-join of scopes and name |
| Bus.Display | src/bus.rs:25-33 | `SignalPath`'s `Display` writes scopes and name joined by "." |
| Bus.Strings | src/bus.rs:53-57 | the strings of a list of YAML strings, one per item, in order |
| Bus.FromYamlRefWithPrefix | src/bus.rs:43-65 | a YAML string is a name in the given scope; a list of strings adds its scopes and takes the last as name; a non-string item, an empty list or any other node is the matching error |
| Bus.FromYamlDisplay | src/bus.rs:43-65 | a path built from a non-empty list of strings displays as the prefix and the list joined by dots |
| Bus.ParseScopeSucceeds | src/bus.rs:101-115 | `parse_scope` succeeds exactly when every leaf of the (nested) YAML is a string, and otherwise fails with "Invalid scope." |
| Bus.ParseScopeAppend | src/bus.rs:101-115 | the scopes of a concatenated list are the concatenated scopes |
| Bus.NestedScopeFlattens | src/bus.rs:101-115 | wrapping a list in another list yields the same scopes |
| Bus.AsU64 | src/bus.rs:129-130 | `as u64` of an i64: in `[0, 2^64)` and congruent to the value |
| Bus.ParseInterval | src/bus.rs:120-131 | one interval parses exactly when it is a list of two integers, and its bounds are those integers cast to u64 |
| Bus.ParseIntervalList | src/bus.rs:119-133 | the list parses exactly when every entry does, entry by entry |
| Bus.InsertByStartCount | src/bus.rs:134 | insertion adds exactly the new interval |
| Bus.InsertByStartSorted | src/bus.rs:134 | insertion keeps the list sorted by start |
| Bus.SortByStart | src/bus.rs:134 | `sort_by` on the start yields a list sorted by start that is a permutation of the input |
| Bus.ParseIntervals | src/bus.rs:117-139 | no `intervals` list gives no intervals; a list gives, when every entry parses, a permutation of the parsed entries sorted by start |
| Bus.ResetType | src/bus.rs:155-162 | a missing `reset_type` is an error; "low" gives 0, "high" gives 1, anything else is an error |
| Bus.ResetTypeLevel | src/bus.rs:155-162 | a configured reset type never yields the X level: low resets at V0, high at V1 |
| Bus.BuildBusDescription | src/bus.rs:229-256 | a missing `handshake` is an error; a result names the bus kind its handshake string selects; a custom bus takes its interpreter from `custom_handshake` and fails without it |
| Bus.BuildSelectsNamedBus | src/bus.rs:239-252 | every built-in handshake name selects its own bus kind |
| Bus.BuildRejectsUnknownNames | src/bus.rs:253 | any other name fails with "Invalid handshake" and the name |
| Classifiers.BinaryLevel | src/bus.rs:273-277 | a one-bit two-state value is level 1 exactly when it prints "1", level 0 exactly when it prints "0" |
| Classifiers.AxiCycle | src/analyze/bus/axi.rs:25-38 | busy exactly when ready and valid are both 1, free when neither, no data when only ready, backpressure when only valid; X and Z count as not 1; panics exactly when `is_value_of_type` does |
| Classifiers.AxiSingleBitTotal | src/analyze/bus/axi.rs:25-38 | on one-bit values the AXI classifier never panics |
| Classifiers.ApbCycle | src/analyze/bus/apb.rs:29-50 | free exactly when select is 0; busy in the setup phase and on a completed access; backpressure exactly in an access phase waiting for ready; unknown when a deciding signal is X, Z or not one bit |
| Classifiers.ApbTwoStateDecides | src/analyze/bus/apb.rs:29-50 | with two-state one-bit signals the APB classifier always decides |
| Classifiers.ApbUndrivenSelect | src/analyze/bus/apb.rs:34-46 | an X or Z select is unknown whatever enable and ready are |
| Classifiers.Grant | src/analyze/bus/credit_valid.rs:34-41 | a credit is returned exactly when both signals are one-bit levels and credit is 1 |
| Classifiers.CreditStep | src/analyze/bus/credit_valid.rs:31-71 | unknown (counter unchanged) when either signal is not a one-bit level; busy exactly on valid 1; free on valid 0 with a credit in hand; the new counter plus the credit spent equals the old counter plus the credit returned |
| Classifiers.CreditsConserved | src/analyze/bus/credit_valid.rs:31-71 | over any run from 0 the counter is the credits returned minus those consumed, so it never underflows |
| Classifiers.CreditValidBus.constructor | src/analyze/bus/credit_valid.rs:17-24 | a new credit/valid bus holds no credits |
| Classifiers.CreditValidBus.InterpretCycle | src/analyze/bus/credit_valid.rs:31-71 | `interpret_cycle` returns the cycle type of CreditStep and stores its new counter |
| Classifiers.ParseU32 | src/bus/axi.rs:41-42 | `parse::<u32>()`: a digit string parses exactly when its value is below 2^32, to that value; a non-digit after the first character fails |
| Classifiers.ParseBit | src/bus/axi.rs:41-42 | "0" and "1" parse as 0 and 1 |
| Classifiers.ParsedBits | src/bus/axi.rs:41-42 | `to_bit_string().unwrap()` panics exactly when there is no bit string; otherwise the parse of it |
| Classifiers.LegacyAxiCycle | src/bus/axi.rs:38-62 | readings (1,1), (0,0), (1,0), (0,1) are busy, free, no data, backpressure; another pair of numbers panics; an unparsable reading is no transaction |
| Classifiers.AxiVersionsAgree | src/bus/axi.rs:38-62 | on two-state one-bit values the earlier and current AXI classifiers agree |
| Classifiers.LegacyAxiRejectsWideValue | src/bus/axi.rs:49 | example only: a wide value reading as 10 panics |
| Classifiers.LegacyCreditValidCycle | src/bus/credit_valid.rs:27-57 | positive credit with valid 1 or 0 is busy or free; credit 0 is busy (with a warning) or no transaction; another valid reading panics; an unparsable reading is no transaction |
| Classifiers.CreditValidBusyAgrees | src/bus/credit_valid.rs:33-42 | a valid transfer is busy in both credit/valid classifiers, with or without a credit |
| Classifiers.LegacyCreditIgnoresOutstanding | src/bus/credit_valid.rs:43 | credit 0 and valid 0 is no transaction for the earlier classifier even when the current one, holding a credit, says free |
| Classifiers.LegacyAhbCycle | src/bus/ahb.rs:51-88 | with `hready` 1: NONSEQ/SEQ busy, IDLE free, BUSY no data; with `hready` 0 backpressure; backpressure only then; a missing `htrans` or unparsable `hready` is no transaction |
| Classifiers.LegacyAhbUndefinedTransfer | src/bus/ahb.rs:75 | an `htrans` that is not a two-bit transfer type panics while ready |
| Classifiers.PythonReadyValid | plugins/python/PythonReadyValid.py:8-17 | busy exactly on ("1","1"), backpressure exactly on ("0","1"), and unknown exactly when either string is not "0" or "1" |
| Classifiers.PythonReadyValidIsAxi | plugins/python/PythonReadyValid.py:8-17 | on two-state one-bit values the plugin agrees with the built-in AXI classifier |
| Classifiers.PythonTestCode | plugins/python/PythonTest.py:6-16 | codes 0 to 4, with 2 exactly when either string is not "0" or "1" |
| Classifiers.LegacyHostCycle | src/bus/custom_python.rs:40-57 | the earlier host returns a cycle type exactly for an integer 0 to 4 (never reset or unknown) and panics otherwise |
| Classifiers.HostCycle | src/analyze/bus/custom_python.rs:56-79 | the current host takes a returned `CycleType` as is and turns anything else into unknown |
| Classifiers.PythonTestThroughHost | plugins/python/PythonTest.py:6-16 | through the earlier host the test plugin never panics and classifies as the ready/valid plugin, with unknown read as no transaction |
| CycleUsage.TicksMul | libbusperf/src/bus_usage.rs:474 | `n` clock periods added one by one is `n * clk` |
| CycleUsage.TicksAdd | libbusperf/src/bus_usage.rs:470-476 | `a + b` periods are `a` periods then `b` periods |
| CycleUsage.WithDuration | libbusperf/src/bus_usage.rs:453-460 | `Period::with_duration` keeps start and duration, and a period of at least one cycle ends at the start of its last cycle |
| CycleUsage.AddNCycles | libbusperf/src/bus_usage.rs:473-477 | `add_n_cycles` keeps the start, adds `n` to the duration and `n` clock periods to the end, and keeps a well-spanned period well spanned |
| CycleUsage.TruncDiv | libbusperf/src/bus_usage.rs:445-446 | signed `/` truncates toward zero: the quotient brackets the dividend from below for a non-negative one and from above for a negative one |
| CycleUsage.PeriodNew | libbusperf/src/bus_usage.rs:444-452 | `Period::new` keeps start and end, and its duration is the number of whole clock periods between them, rounded toward zero |
| CycleUsage.PeriodNewOfSpan | libbusperf/src/bus_usage.rs:444-460 | rebuilding a `with_duration` period of `d` cycles with `Period::new` from its start and end gives `d - 1` |
| CycleUsage.GrowLast | libbusperf/src/bus_usage.rs:208-211 | `last_mut().add_n_cycles(n)` changes only the last period, as AddNCycles does |
| CycleUsage.BusyStep | libbusperf/src/bus_usage.rs:200-234 | `add_busy_cycle` leaves the delays alone and always ends in a burst |
| CycleUsage.WastedStep | libbusperf/src/bus_usage.rs:236-294 | `add_wasted_cycle` leaves the bursts alone and never ends in a burst |
| CycleUsage.TotalDurationGrow | libbusperf/src/bus_usage.rs:473-477 | growing the last period by `n` grows the total duration by `n` |
| CycleUsage.TotalDurationPositive | libbusperf/src/bus_usage.rs:453-460 | a list of periods of at least one cycle lasts at least as many cycles as it has periods |
| CycleUsage.BusyStepSound | libbusperf/src/bus_usage.rs:200-234 | a busy cycle keeps Sound: every cycle in exactly one burst, one delay or the pending pause; the pause between 1 and `max_burst_delay`; the current period reaching the start of the latest cycle |
| CycleUsage.WastedStepSound | libbusperf/src/bus_usage.rs:236-294 | a wasted cycle keeps Sound in the same sense |
| CycleUsage.OpenFirst | libbusperf/src/bus_usage.rs:202-206 | the first cycle opens a one-cycle burst or delay at time 0 |
| CycleUsage.GrowBurst | libbusperf/src/bus_usage.rs:208-228 | a busy cycle after a burst, or after a pause of `d` cycles, makes the burst `d + 1` cycles longer |
| CycleUsage.GrowDelay | libbusperf/src/bus_usage.rs:269-274 | a wasted cycle after a delay makes the delay one cycle longer |
| CycleUsage.HoldPause | libbusperf/src/bus_usage.rs:266-267 | a wasted cycle within `max_burst_delay` of a burst is held in the pause |
| CycleUsage.OpenAfter | libbusperf/src/bus_usage.rs:213-223 | a busy cycle after a delay, or a wasted cycle that ends a burst, opens a new period one clock after the current one; a delay opened from a pause takes the pause's cycles |
| CycleUsage.Tally | libbusperf/src/bus_usage.rs:236-245 | each cycle adds exactly one to the counters, an unknown cycle to no transaction |
| CycleUsage.SingleChannelBusUsage.constructor | libbusperf/src/bus_usage.rs:170-190 | all counters 0, no periods, nothing being calculated |
| CycleUsage.SingleChannelBusUsage.AddCycle | libbusperf/src/bus_usage.rs:192-198 | one more cycle: counters as Tally, lists and state as Step, and Valid (with Sound) preserved |
| CycleUsage.SingleChannelBusUsage.AddBusyCycle | libbusperf/src/bus_usage.rs:200-234 | the busy counter grows by one and the lists move as BusyStep |
| CycleUsage.SingleChannelBusUsage.ExtendBusy | libbusperf/src/bus_usage.rs:201-232 | the burst list and state move as BusyStep |
| CycleUsage.SingleChannelBusUsage.AddWastedCycle | libbusperf/src/bus_usage.rs:236-294 | the counter of the cycle's type grows by one and the lists move as WastedStep |
| CycleUsage.SingleChannelBusUsage.ExtendWasted | libbusperf/src/bus_usage.rs:246-293 | the delay list and state move as WastedStep |
| CycleUsage.SingleChannelBusUsage.CountWasted | libbusperf/src/bus_usage.rs:237-245 | the counter of the cycle's type grows by one, unknown going to no transaction |
| Buckets.ILog2 | libbusperf/src/bus_usage.rs:377 | `ilog2(v)` is the exponent with `2^r <= v < 2^(r+1)` |
| Buckets.ExponentUnique | libbusperf/src/bus_usage.rs:377 | only one exponent brackets a number between neighbouring powers of two |
| Buckets.BucketNum | libbusperf/src/bus_usage.rs:389-395 | `bucket_num` is 0 exactly for 0 and positive exactly for positive durations, and the duration lies in the bucket it names |
| Buckets.BucketNumExact | libbusperf/src/bus_usage.rs:389-395 | every duration lies in exactly one bucket, the one `bucket_num` names |
| Buckets.Select | libbusperf/src/bus_usage.rs:397-414 | `filter` keeps exactly the periods whose key matches |
| Buckets.SelectCount | libbusperf/src/bus_usage.rs:397-414 | as many periods are selected for a key as the key occurs among the periods |
| Buckets.DataOfValue | libbusperf/src/bus_usage.rs:397-404 | `get_data_of_value` keeps exactly the periods of that duration |
| Buckets.DataForBucket | libbusperf/src/bus_usage.rs:405-414 | `get_data_for_bucket` keeps exactly the periods in that bucket |
| Buckets.Histogram | libbusperf/src/bus_usage.rs:358-369 | the counting loop maps each key that occurs to its number of occurrences, and the counts add up to the number of keys |
| Buckets.GetData | libbusperf/src/bus_usage.rs:356-370 | `get_data` maps exactly the durations that occur to how many periods have them; the counts add up to the number of periods |
| Buckets.GetBuckets | libbusperf/src/bus_usage.rs:372-388 | `get_buckets` maps exactly the buckets that occur to how many periods fall in them; the counts add up to the number of periods |
| Buckets.BucketsNum | libbusperf/src/bus_usage.rs:416-418 | `buckets_num` is the number of distinct buckets, 0 exactly when there are no periods |
| Buckets.MinMax | libbusperf/src/bus_usage.rs:421-422 | the minimum and maximum are durations of some period and bound every duration |
| Buckets.DisplayNoData | libbusperf/src/bus_usage.rs:419-429 | `display` says "no data" exactly when there are no periods |
| MultiUsage.IsOkLowBits | libbusperf/src/bus_usage.rs:647 | a response counts as correct exactly when its last two bits are "00" or "01" |
| MultiUsage.AxiResponses | libbusperf/src/bus_usage.rs:647 | of the two-bit AXI responses OKAY and EXOKAY are correct, SLVERR and DECERR errors |
| MultiUsage.ErrorTimes | libbusperf/src/bus_usage.rs:647-651 | the issue times of the failed transactions, no more than the transactions |
| MultiUsage.ErrorsAndCorrect | libbusperf/src/bus_usage.rs:647-651 | every transaction is counted once, as correct or as an error |
| MultiUsage.MultiChannelBusUsage.constructor | libbusperf/src/bus_usage.rs:517-544 | no transactions, no errors and no time yet |
| MultiUsage.MultiChannelBusUsage.AddTransaction | libbusperf/src/bus_usage.rs:631-653 | each of the four latency lists gains the `Period::new` of its pair of times; a correct response adds one to the correct count, an error appends the issue time; time is unchanged |
| MultiUsage.MultiChannelBusUsage.AddTime | libbusperf/src/bus_usage.rs:655-657 | the analysed time grows by the interval; nothing else changes |
| Text.NatToString | libbusperf/src/bus_usage.rs:424 | decimal digits with no leading zero |
| Text.NatToStringValue | libbusperf/src/bus_usage.rs:424 | reading the digits back gives the number |
| Text.NatToStringInjective | libbusperf/src/bus_usage.rs:424 | different numbers print differently |
| Text.IntToString | libbusperf/src/bus_usage.rs:424 | a minus sign exactly for negative numbers, then the digits |
| Text.Join | src/show/text_output.rs:101 | `join`: empty for no parts, the part itself for one, and the parts' length plus one separator between neighbours |
| LegacyUsage.WrappingSub | src/bus_usage.rs:398-401 | `u32` subtraction wraps: the true difference when it is not negative, else the difference plus 2^32 |
| LegacyUsage.WrappingAdd | src/bus_usage.rs:411 | `u32` addition wraps: the true sum below 2^32, else the sum less 2^32 |
| LegacyUsage.Bump | src/bus_usage.rs:68-72 | the array grows to hold index `i` when it is too short, and is left at its length otherwise |
| LegacyUsage.BumpAt | src/bus_usage.rs:68-72 | bucket `i` gains one count, every other bucket keeps its count, and buckets added by the resize start at 0 |
| LegacyUsage.TallySnoc | src/bus_usage.rs:68-72 | counting one more key bumps its bucket |
| LegacyUsage.TallyCounts | src/bus_usage.rs:68-72 | each bucket holds the number of keys equal to its index, and no key lies beyond the array |
| LegacyUsage.TallyLength | src/bus_usage.rs:69-71 | the array is empty for no keys and otherwise exactly long enough for the largest key |
| LegacyUsage.TallySum | src/bus_usage.rs:68-72 | the bucket counts add up to the number of keys |
| LegacyUsage.LogKeys | src/bus_usage.rs:68 | one key per closed value |
| LegacyUsage.LogKeysAt | src/bus_usage.rs:68 | each closed value is positive and its key is its `ilog2` |
| LegacyUsage.LogKeysSnoc | src/bus_usage.rs:99 | closing one more positive value appends its `ilog2` |
| LegacyUsage.LogBucketsSnoc | src/bus_usage.rs:99-103 | closing one more value bumps the bucket of its `ilog2` |
| LegacyUsage.LogBucketsTally | src/bus_usage.rs:68-72 | bumping value by value gives the counts of the `ilog2` keys of all values |
| LegacyUsage.DelayBucketsExample | src/bus_usage.rs:68-72 | example only: closed delays 1, 2, 1, 6, 2 give the bucket counts 2, 2, 1 |
| LegacyUsage.TallyExample | src/bus_usage.rs:68-72 | example only: keys 0, 1, 0, 2, 1 give the bucket counts 2, 2, 1 |
| LegacyUsage.LogBucketRange | src/bus_usage.rs:244-249 | a closed value lies in bucket `i` exactly when it is within the range the header labels it with, 2^i to 2^(i+1) - 1 |
| LegacyUsage.FinishList | src/bus_usage.rs:111-131 | `end` on one list: a positive open value is counted in its bucket, a zero one is popped, and afterwards every element is closed and counted |
| LegacyUsage.DelaysSoundSetLast | src/bus_usage.rs:76 | rewriting the open delay with a non-negative value keeps the delay list sound |
| LegacyUsage.DelaysSoundClose | src/bus_usage.rs:64-72 | closing an open delay longer than `max_burst_delay` and counting it keeps the delay list sound |
| LegacyUsage.BurstsSoundSetLast | src/bus_usage.rs:105-107 | rewriting the open burst with a non-negative value keeps the burst list sound |
| LegacyUsage.BurstsSoundClose | src/bus_usage.rs:94-103 | closing a positive burst, shortened by the pause, and counting it keeps the burst list sound |
| LegacyUsage.BusyStepSound | src/bus_usage.rs:59-78 | a busy cycle keeps both lists sound: closed values positive, closed delays longer than `max_burst_delay`, buckets counting exactly the closed values |
| LegacyUsage.WastedStepSound | src/bus_usage.rs:80-109 | a wasted cycle keeps both lists sound in the same sense |
| LegacyUsage.Initial | src/bus_usage.rs:31-49 | a fresh accumulator's lists are sound |
| LegacyUsage.Step | src/bus_usage.rs:51-57 | a cycle never shortens either list |
| LegacyUsage.Run | src/bus_usage.rs:51-57 | after any cycles there is always an open delay and an open burst, so `current_delay` and `current_burst` index an element |
| LegacyUsage.RunSound | src/bus_usage.rs:51-109 | whatever the cycles, the lists stay sound: each bucket array counts exactly the closed values by `ilog2` |
| LegacyUsage.EndFinished | src/bus_usage.rs:111-131 | after `end` every list element is closed, positive and counted in its bucket |
| LegacyUsage.BucketsCountClosed | src/bus_usage.rs:51-109 | before `end`, each bucket array holds one count per closed value, all but the open one |
| LegacyUsage.BucketsCountAll | src/bus_usage.rs:111-131 | after `end`, each bucket array holds one count per list element |
| LegacyUsage.SingleChannelBusUsage.constructor | src/bus_usage.rs:31-49 | all counters 0, one open delay and one open burst at 0 |
| LegacyUsage.SingleChannelBusUsage.AddCycle | src/bus_usage.rs:51-57 | one more cycle: counters as the cycle's tally (unknown counted as no transaction), lists as Step, `current_delay` and `current_burst` on the open values |
| LegacyUsage.SingleChannelBusUsage.AddBusyCycle | src/bus_usage.rs:59-78 | the busy counter and the open burst grow and the open delay is settled as BusyStep |
| LegacyUsage.SingleChannelBusUsage.SettleDelay | src/bus_usage.rs:61-77 | the lists move as BusyStep |
| LegacyUsage.SingleChannelBusUsage.AddWastedCycle | src/bus_usage.rs:80-109 | the counter of the cycle's type grows and the lists move as WastedStep |
| LegacyUsage.SingleChannelBusUsage.CountWasted | src/bus_usage.rs:81-89 | the counter of the cycle's type grows by one, unknown going to no transaction |
| LegacyUsage.SingleChannelBusUsage.SettleBurst | src/bus_usage.rs:90-108 | the lists move as WastedStep |
| LegacyUsage.SingleChannelBusUsage.End | src/bus_usage.rs:111-131 | every list element ends closed and counted, the lists moving as EndStep |
| LegacyUsage.SingleChannelBusUsage.CloseOpen | src/bus_usage.rs:111-131 | the lists move as EndStep |
| LegacyUsage.ILog2Monotone | src/bus_usage.rs:318 | a larger positive value never has a smaller `ilog2` |
| LegacyUsage.VecKey | src/bus_usage.rs:318 | bucket 0 holds exactly 0, and bucket `k > 0` holds the values from 2^(k-1) to below 2^k |
| LegacyUsage.VecKeys | src/bus_usage.rs:317-318 | one bucket key per value |
| LegacyUsage.VecKeysMax | src/bus_usage.rs:327-332 | the largest key is the key of the largest value |
| LegacyUsage.VecKeyMonotone | src/bus_usage.rs:318 | a larger value never has a smaller bucket |
| LegacyUsage.VecStatistic.constructor | src/bus_usage.rs:312-314 | no values |
| LegacyUsage.VecStatistic.Add | src/bus_usage.rs:334-336 | the value is appended and nothing else changes |
| LegacyUsage.VecStatistic.Len | src/bus_usage.rs:338-340 | the number of values |
| LegacyUsage.VecStatistic.GetBuckets | src/bus_usage.rs:315-326 | panics exactly when a value is negative (`ilog2` of a negative `i32`); otherwise each entry counts the values in its bucket |
| LegacyUsage.VecStatistic.BucketsNum | src/bus_usage.rs:327-332 | panics exactly on no values or a negative maximum; otherwise at least 1 |
| LegacyUsage.BucketsNumIsLength | src/bus_usage.rs:315-332 | with values and none negative, `buckets_num` is the length of the `get_buckets` array |
| LegacyUsage.VecBucketsCount | src/bus_usage.rs:315-326 | each `get_buckets` entry counts the values whose key is its index, and no value's key lies beyond the array |
| LegacyUsage.MultiChannelBusUsage.constructor | src/bus_usage.rs:366-387 | four empty statistics, no transactions, no errors, time 0 |
| LegacyUsage.MultiChannelBusUsage.AddTransaction | src/bus_usage.rs:389-412 | each latency statistic gains half the wrapping `u32` difference of its pair of times; a response ending in "00" or "01" counts as correct, any other as an error; the time becomes the wrapping sum of response time and delay |
| LegacyUsage.CountsAddUp | src/bus_usage.rs:403-407 | every transaction is counted once, as correct or as an error |
| LegacyUsage.MaxLen | src/bus_usage.rs:224-233 | the maximum bounds every length and is one of them |
| LegacyUsage.DelayBucketLens | src/bus_usage.rs:224-228 | one delay bucket count per usage |
| LegacyUsage.BurstBucketLens | src/bus_usage.rs:229-233 | one burst bucket count per usage |
| LegacyUsage.Labels | src/bus_usage.rs:244-250 | `n` labels, label `i` naming the range 2^i to 2^(i+1) - 1 |
| LegacyUsage.HeaderLayout | src/bus_usage.rs:235-252 | the header has the seven fixed columns, the delay labels, "burst lengths" and the burst labels, in that order |
| LegacyUsage.WidestDelays | src/bus_usage.rs:224-228 | the widest delay bucket array is one of the usages' and no usage's is wider |
| LegacyUsage.WidestBursts | src/bus_usage.rs:229-233 | the widest burst bucket array is one of the usages' and no usage's is wider |
| LegacyUsage.GetHeader | src/bus_usage.rs:223-253 | panics exactly on no usages; otherwise the header has that layout with as many delay and burst columns as the widest usage has buckets |
| Drivers.CountedTimes | src/analyze/analyzer/default_analyzer.rs:158-171 | the loop counts at most one edge per clock change |
| Drivers.SampleAll | src/analyze/analyzer/default_analyzer.rs:180-189 | every bus signal is read at the same time, giving one value per signal, and the read succeeds exactly when every signal has a value by then |
| Drivers.EdgeCycle | src/analyze/analyzer/default_analyzer.rs:173-211 | an edge that does not panic has read every signal one time index before it; with the reset active its cycle is a reset cycle and the bus description's state is unchanged, otherwise the cycle is the bus description's answer |
| Drivers.Advance | src/analyze/analyzer/default_analyzer.rs:158-171 | a panic stays a panic, and a change that is a falling edge or lies outside every interval adds nothing |
| Drivers.RunEdgesPrefix | src/analyze/analyzer/default_analyzer.rs:158 | the loop over `i + 1` changes is the loop over `i` changes and one more step |
| Drivers.RunEdgesPanicStays | src/analyze/analyzer/default_analyzer.rs:175-187 | once an edge panics the whole analysis panics |
| Drivers.RunEdgesPerEdge | src/analyze/analyzer/default_analyzer.rs:158-212 | exactly one cycle per counted edge, and an edge's cycle is a reset cycle exactly when the reset is active just before it |
| Drivers.NoIntervalsCountsRisingEdges | src/analyze/analyzer/default_analyzer.rs:159-171 | without intervals every change except a falling edge is counted |
| Drivers.CountedInIntervals | src/analyze/analyzer/default_analyzer.rs:164-171 | with intervals, every counted edge lies inside one of them |
| Drivers.TallyAllCounts | src/analyze/analyzer/default_analyzer.rs:192-212 | each counter ends holding the number of cycles of its type, unknown cycles counted as no transaction |
| Drivers.Replay | src/analyze/analyzer/default_analyzer.rs:152-157 | the burst and delay state of any cycles from a fresh accumulator is well shaped |
| Drivers.TallyReplaySnoc | src/analyze/analyzer/default_analyzer.rs:209-211 | one more cycle adds to the counters and steps the burst and delay state |
| Drivers.WalkStep | src/analyze/analyzer/default_analyzer.rs:158-212 | one step of the loop either skips the change, adds the edge's cycle, or panics the whole analysis |
| Drivers.FeedEdge | src/analyze/analyzer/default_analyzer.rs:159-211 | the loop body keeps the accumulator valid and holding the counters and state of the cycles so far, or panics when the whole analysis panics |
| Drivers.AnalyzeSingleBus | src/analyze/analyzer/default_analyzer.rs:131-224 | `analyze_single_bus` panics exactly when some counted edge does; otherwise the fresh accumulator holds the counters and burst and delay state of exactly the cycles of the counted edges |
| Drivers.BuiltInNeverReset | src/analyze/analyzer/default_analyzer.rs:192-211 | no built-in bus description answers a reset cycle, so the reset cycles are exactly the edges with an active reset |
| Drivers.LegacyEdgeCycle | src/analyzer.rs:62-76 | an edge that does not panic has read every signal one time index before it; a reset bit string equal to the active value gives a reset cycle, anything else the bus description's answer |
| Drivers.LegacyAdvance | src/analyzer.rs:57-62 | a panic stays a panic, and a falling edge adds nothing |
| Drivers.LegacyRunEdgesPrefix | src/analyzer.rs:57 | the loop over `i + 1` changes is the loop over `i` changes and one more step |
| Drivers.LegacyPanicStays | src/analyzer.rs:65-72 | once an edge panics the whole analysis panics |
| Drivers.RisingTimes | src/analyzer.rs:57-62 | at most one counted edge per change |
| Drivers.LegacyRunEdgesPerEdge | src/analyzer.rs:57-77 | one cycle per change that is not a falling edge, a reset cycle exactly when the reset's bit string is the active value |
| Drivers.LegacyFeedEdge | src/analyzer.rs:58-76 | the loop body keeps the accumulator valid and holding exactly the cycles so far, or panics when the whole analysis panics |
| Drivers.LegacyAnalyzeSingleBus | src/analyzer.rs:37-82 | panics exactly when some edge does; otherwise one cycle per rising edge is added and, after `end`, every delay and burst is closed and counted in its bucket |
| Drivers.BuildAnalyzer | src/analyze/analyzer.rs:40-102 | `build` picks the default analyzer exactly when there is no `custom_analyzer` and the bus description builds; the two AXI names give the AXI analyzers; any other name needs the Python plugins |
| Drivers.LegacyBuildAnalyzer | src/analyzer.rs:19-30 | the earlier `build`: the default analyzer exactly without `custom_analyzer`, the AXI write analyzer exactly for its name, every other name a Python plugin |
| Drivers.BuildersDifferOnAxiRd | src/analyzer.rs:20-25 | "AXIRdAnalyzer" goes to the Python plugins in the earlier builder and to the AXI read analyzer in the current one |
| Drivers.RequiredYaml | src/analyze/analyzer/default_analyzer.rs:113-128 | every built-in analyzer reads the common configuration keys; a Python analyzer reads what its plugin declared |
| Drivers.UnusedKeys | src/analyze/analyzer.rs:158-179 | a reported value's dotted path is one the analyzer does not read; with UnreadLeafReported and ReportedIsLeaf, the values reported are exactly the unread leaves |
| Drivers.UnusedEntries | src/analyze/analyzer.rs:161-170 | a reported value of the remaining entries has a path the analyzer does not read |
| Drivers.AllReadNoWarnings | src/analyze/analyzer.rs:158-179 | a configuration every part of which is read produces no warning |
| Drivers.AllReadEntries | src/analyze/analyzer.rs:161-170 | remaining entries that are all read produce no warning |
| Drivers.UnreadLeafReported | src/analyze/analyzer.rs:158-179 | every leaf of the configuration whose dotted path the analyzer does not read is reported |
| Drivers.ReportedIsLeaf | src/analyze/analyzer.rs:158-179 | every reported value is a leaf of the configuration, reported under its dotted path |
| Drivers.UnusedKeyReported | src/analyze/analyzer.rs:174-178 | example only (UnreadLeafReported is the general law): a key no analyzer reads is reported with its dotted path |
| Drivers.BuildChecked | src/analyze/analyzer.rs:40-110 | `build` succeeds exactly when the builder does, returns its analyzer, and warns about nothing when the configuration is all read |
| TextOutput.RangeText | src/show/text_output.rs:72-88 | the range text of a bucket is never empty |
| TextOutput.BucketLabel | src/show/text_output.rs:72-89 | a cell entry, the bucket's range text followed by its count, is never empty and never starts like "No transaction on this bus" |
| TextOutput.ExactLabel | src/show/text_output.rs:72-73 | buckets 0 and 1 hold exactly the durations 0 and 1, and their label is that number |
| TextOutput.SpanLabel | src/show/text_output.rs:82-88 | for buckets 2 to 10 the label names the first and last duration of the bucket, and the bucket holds exactly the durations between them |
| TextOutput.KiloLabel | src/show/text_output.rs:79-81 | for buckets 11 to 20 the label gives the bucket's start and end in units of 1024 cycles, and the bucket holds exactly the durations in that range |
| TextOutput.MegaLabel | src/show/text_output.rs:76-78 | for buckets 21 to 40 the label gives the bucket's start and end in units of 2^20 cycles, and the bucket holds exactly the durations in that range |
| TextOutput.OpenLabelOverstates | src/show/text_output.rs:74-75 | bucket `i` from 41 on is labelled "2^i+", yet all its durations are below 2^i and 2^(i-1) lies in it; CyclesBucketsClosed shows no `i32` duration reaches these buckets |
| TextOutput.CyclesBucketsClosed | libbusperf/src/lib.rs:26 | a duration that fits the `i32` cycle count lies in a bucket between -32 and 32, so the open-ended label of buckets from 41 on is never printed |
| TextOutput.MinOf | src/show/text_output.rs:66-67 | the least key of a non-empty set of keys is in the set and below every other |
| TextOutput.NonZeroAscending | src/show/text_output.rs:66-71 | the buckets listed are exactly those with a non-zero count, in strictly ascending order, as a `BTreeMap` walks them |
| TextOutput.Entries | src/show/text_output.rs:68-94 | one entry per listed bucket, each the bucket's label with its count |
| TextOutput.BucketCell | src/show/text_output.rs:66-100 | the cell is "No transaction on this bus" exactly when every count is zero, and otherwise the labelled non-zero buckets in ascending order joined by "; " |
| TextOutput.NoTransactionIffEmpty | src/show/text_output.rs:96-100 | a bucket statistic's cell says "No transaction on this bus" exactly when it holds no period |
| TextOutput.DebugPeriods | src/show/text_output.rs:63-64 | the verbose cell is a bracketed list, "[]" exactly for no periods |
| TextOutput.LabelsOf | src/show/text_output.rs:36-40 | one header column per percentage entry, its label, in order |
| TextOutput.ValuesOf | src/show/text_output.rs:57-61 | one row cell per percentage entry, its value, in order |
| TextOutput.StatLabels | src/show/text_output.rs:35-45 | a statistic's header columns number its width |
| TextOutput.StatCells | src/show/text_output.rs:56-106 | a statistic's row cells number its width |
| TextOutput.LabelsWidth | src/show/text_output.rs:34-46 | the header columns of the statistics number their total width |
| TextOutput.RowCellsWidth | src/show/text_output.rs:55-107 | the row cells of the statistics number their total width |
| TextOutput.PrefixColumns | src/show/text_output.rs:34-107 | the columns of the first statistics begin both the header and the row |
| TextOutput.CellsUnderLabels | src/show/text_output.rs:34-107 | each statistic's cells sit under its own header columns |
| TextOutput.SingleChannelStatistics | libbusperf/src/bus_usage.rs:135-168 | a single-channel bus reports eight columns: the six cycle counters under "Busy", "Backpressure", "No data", "No transaction", "Free" and "Reset", then the delay and the burst buckets |
| TextOutput.RowMatchesHeader | src/show/text_output.rs:25-111 | a row of a bus as wide in statistics as the first bus is exactly as wide as the header, and starts with the bus name under "bus name" |
| TextOutput.GetHeader | src/show/text_output.rs:25-48 | nothing for no bus; otherwise "bus name" followed by the first bus's statistic labels |
| TextOutput.PushStatistic | src/show/text_output.rs:56-106 | one statistic appends exactly its cells to the row |
| TextOutput.GetRow | src/show/text_output.rs:53-108 | a row is the bus name followed by the cells of its statistics, one per column |
| TextOutput.GetData | src/show/text_output.rs:50-111 | one row per bus, in the order the buses are given |
| TextOutput.Singles | src/show/text_output.rs:129-135 | exactly the single-channel buses |
| TextOutput.Multis | src/show/text_output.rs:142-148 | exactly the multi-channel buses |
| TextOutput.SplitIsPartition | src/show/text_output.rs:129-148 | every bus goes to exactly one of the two tables |
| TextOutput.MakeTable | src/show/text_output.rs:136-139 | a table is the header of its buses and one row per bus |
| TextOutput.PrintStatistics | src/show/text_output.rs:113-155 | the single-channel table comes first when there is a single-channel bus, the multi-channel table last when there is a multi-channel bus, and there is no other table |
| TextOutput.GenerateCsv | src/show/text_output.rs:187-226 | the records are the same tables as the printed report, each header followed by its rows |
| TextOutput.CalculatedResults | src/text_output.rs:129-132 | panics exactly when some analyzer has no result; otherwise the results in order |
| TextOutput.LegacyPrintStatistics | src/text_output.rs:115-158 | panics exactly when some analyzer has no result; otherwise the same tables as the current report |
| TextOutput.LegacyGenerateCsv | src/text_output.rs:178-215 | panics exactly when some analyzer has no result; otherwise the same records as the current report |

## Left out

- Waveform loading:
  - the signals arrive as lists of `(time index, value)` changes;
  - the `time_table` that maps indices to simulation times is not applied, so the AXI records stay in index space.
- Output and side effects:
  - `eprintln!` warnings and verbose timing prints are not modelled;
  - where the source warns and carries on, the model returns the diagnostic or takes the same branch silently.
- The Python foreign-function interface and plugin loading:
  - the two classifier plugins are modelled on the Python side, together with the integer-to-cycle conversion of the host;
  - which plugin a name loads is not modelled.
- The per-interval driver of the Rust AXI analyzers is not modelled. Each engine is modelled on one interval, with the interval's end as the trace end.
- Floating point:
  - `MultiChannelBusUsage::end`, bandwidth windows, error rate and percentages are not modelled;
  - a percentage cell arrives as already-rendered text (`render` stands for the conversion).
- Report scope:
  - `skipped_stats` filtering of statistics is not modelled;
  - the `tabled` and `csv` writers are not modelled: a table is its header and rows;
  - the earlier `get_header_multi` and `get_data` of `src/bus_usage.rs` are not modelled.
- Hash-map iteration order, which Rust leaves unspecified, is modelled as the order in which the IDs first appear, where a result depends on it (the transactions reported unfinished).
- Reading each bus kind's signal paths from the configuration in the builders is not modelled. The builders select the kind and the analyzer.
- The YAML library's own parsing is not modelled: configurations arrive as a YAML value.
- Building a sub-analyzer from YAML is not modelled beyond the pure helpers of `src/bus.rs`. `Drivers.BuildAnalyzer` fails only on an invalid bus name, on a plugin name with the plugins compiled out, or on a bus description that does not build.
- The in-place sort of `parse_intervals` and the shared `path` stack of `check_unused_signals` are modelled on values:
  - the sort is a stable insertion by start;
  - the path is a parameter, so "the caller's path is unchanged" holds by construction.
- The Python `NameError` on the diagnostic paths that name `time_table` is modelled as an error outcome of that branch, not as the exception object.
- `to_bit_string().unwrap()` panics in the earlier Rust analyzers are not modelled: their traces arrive as bit strings.
- Integer widths:
  - counters and credits are unbounded (no `u32` overflow);
  - the `u32` subtractions and additions of the earlier Rust analyzers and of `src/bus_usage.rs` wrap as in a release build; a debug build would panic instead.
- `LegacyUsage.Labels`: the labels use unbounded integers. An `i32` value has a bucket index of at most 30, and there the `i32` shifts print the same text in a release build.
- `CycleUsage.PeriodNew`: requires a positive clock period. The clock period is `time_table[2]`, and a zero period would panic in Rust's division.
- `AxiIterators.ReadyValidTransactionIterator.Next`:
  - callers stop at the first `None`, as the analyzers do;
  - what happens when `next` is called again after `None` is not modelled.
- `AxiIterators.ReadyValidTransactionIterator.Collect`: proves that every yielded time is a completed handshake, in increasing order. It does not prove that every handshake is yielded.
- `AxiFullRdPython.Match`: promises neither that a record's first data comes after its issue nor that no reset lies between the issue and the closing beat, because the plugin checks neither. RecordOk only keeps the reset out from the latest address event before the beat. CompletesAcrossReset and CompletesBeforeIssue show both runs.
- `AxiLiteRdPython.LiteMatch`: does not promise that the answering beat comes after the address event, because the plugin takes the next beat unconditionally; LiteAnswersBeforeIssue shows such a run.
- `ReadMatching.CompleteRecordOk`: keeps the reset out only from the latest address event before the closing beat, not from the record's own issue, because the engines clear the dictionary only when a beat lies past the reset; CompletesAcrossReset shows a completion across a reset.
- `AxiRead.Match`: promises neither data after issue nor a reset-free span from issue to the closing beat, for the same reason as the plugin; CompletesAcrossReset and CompletesBeforeIssue show both runs.
- `AxiRead.CalculateLite`: does not promise that the answering R beat comes after the AR; LiteAnswersBeforeIssue shows such a run.
- `AxiWrite.Match`: does not promise a reset-free span from the AW to its response; CompletesAcrossReset shows a response across a reset. Write data before its AW is legal AXI, so there is no data-after-issue promise to make.
- `AxiWrite.CalculateLite`: does not promise that the W and B beats come after the AW; LiteAnswersBeforeIssue shows a response before its AW.
