# streamsow relay core, modelled in Dafny

streamsow is a relay gateway. It receives a transport stream over RIST or UDP/RTP and fans it out to SRT, UDP/RTP and DekTec ASI outputs. A configuration file describes one or more *flows*. This project models three parts of that system and proves what they promise.

- **The receive loop of a flow** (`Mainloop`, mainloop.dfy). The goroutine that takes one event at a time is a `Mainloop` class. Each turn of `receiveLoop`'s `select` is one method call: a RIST block, a UDP packet, an add-output, a remove-by-index or a remove-by-writer message, cancellation, or a closed RIST channel. The loop keeps several pieces of state, and the model proves how each turn changes them:
  - the 16-bit expected RIST sequence number;
  - the stream-wide MPEG-TS continuity counter (ISO/IEC 13818-1, sections 2.4.3.2 and 2.4.3.3);
  - the total discontinuity counter and the windowed one, with its five-second report time;
  - the packet and byte statistics;
  - the output registry, keyed by a monotonically increasing index.
- **The flow orchestrator** (`Flow`, flow.dfy):
  - `CreateFlow` is a fixed sequence of fallible steps.
  - `setupInput` and `setupOutput` choose an adapter by URL scheme and bind it in a table keyed by URL.
  - `UpdateConfig` is a no-op when nothing changed, a full rebuild when a RIST setting changed, and otherwise a set-diff over the two tables.
  - Every call to the outside world is appended to a `World` log: statistics, receiver, adapter constructors, `Close`, `Stop`. An `Env` value decides whether each fallible call succeeds. So the proofs hold for every pattern of failures. `CreateFlow`, `Wire`, `Rebuild` on success, the `Setup*` methods, `SyncOutput` and the `RemoveStale*` methods state the exact log they append. The update loops and `UpdateConfig`'s diff state instead which adapters are closed and which are not, that the add loop only constructs, and how many constructor calls are made.
- **Configuration validators** (`Config`, `Stats`, config.dfy and stats.dfy):
  - the strict per-flow validator used when a file is loaded;
  - the flow-level validator used by `CreateFlow`;
  - the two InfluxDB validators;
  - the URL, host:port and uniqueness helpers.

  Each validator is a pure verdict that names the error of the first failing check. The imperative ones are methods proved equal to that verdict. `url.Parse` and `net.SplitHostPort` are function parameters (`Urls.Parser`, `Urls.HostPortSplitter`), so every result holds for any parser. This module also covers `Options.Clone` of the SRT options map (`Srt`, srt_options.dfy).

Conventions used throughout:

- Go's `error` is `Wrappers.Outcome` (`Pass` is `nil`).
- A nil pointer or nil map is `None` or `null`.
- Go's `reflect.DeepEqual` on configuration records is datatype equality.
- `uint16` arithmetic is written out with `% 0x1_0000`.
- `RIST_PROFILE_SIMPLE` is librist's value 0.

## Model

| member | source | states |
|---|---|---|
| Mainloop.DetectTsDiscontinuity | mainloop/mainloop.go:134-153 | A short packet or one without sync byte 0x47 reports nothing and keeps `lastCC`. The first recognised packet stores its counter silently. Every later one stores its counter and reports iff it differs from `lastCC + 1` modulo 16. `lastCC` stays within -1..15 |
| Mainloop.ContinuityCounter | mainloop/mainloop.go:142 | The counter is a 4-bit value, 0..15 |
| Mainloop.ContinuousTsStreamIsClean | mainloop/mainloop.go:134-153 | TS packets whose counters rise by one modulo 16 report no discontinuity |
| Mainloop.UnrecognisedPacketsAreIgnored | mainloop/mainloop.go:135-140 | Packets that are too short or lack the sync byte never count |
| Mainloop.NextExpectedSec | mainloop/mainloop.go:207 | The next expected number is the sequence number plus one, modulo 2^16 |
| Mainloop.WideSeqNoIsDiscontinuity | mainloop/mainloop.go:191-193 | A sequence number of 65536 or more is always a discontinuity |
| Mainloop.ConsecutiveBlocksAreClean | mainloop/mainloop.go:186-207 | Unflagged blocks numbered consecutively from the expected number, wrapping at 65535, count zero discontinuities and leave the expected number just past the run |
| Mainloop.GapThenConsecutive | mainloop/mainloop.go:186-207 | A run that starts one number late counts exactly one discontinuity |
| Mainloop.SingleGapCountsOnce | mainloop/mainloop.go:186-207 | A consecutive run with one skipped number counts exactly one discontinuity |
| Mainloop.RistDiscontinuitiesAppend | mainloop/mainloop.go:186-207 | Counting over two runs in a row adds up, and the expected number threads through |
| Mainloop.Mainloop.constructor | mainloop/mainloop.go:115-129 | A new loop starts running, with no outputs, empty queues, zero statistics, expected number 0, no TS counter and the zero report time |
| Mainloop.Mainloop.AddOutput | mainloop/mainloop.go:90-98 | After cancellation the request is dropped; otherwise the adapter is queued on the add channel |
| Mainloop.Mainloop.RemoveOutput | mainloop/mainloop.go:75-82 | After cancellation the request is dropped; otherwise it is queued on the remove channel |
| Mainloop.Mainloop.RemoveOutputById | mainloop/mainloop.go:66-73 | After cancellation the request is dropped; otherwise the index is queued |
| Mainloop.Mainloop.DeleteOutput | mainloop/mainloop.go:84-88 | The entry's channel is closed and only that entry leaves the registry |
| Mainloop.Mainloop.OnRistBlock | mainloop/mainloop.go:181-216 | A block counts one discontinuity iff it is flagged or its number is not the expected one. The count goes into both counters. The windowed counter is reset and the report time set only when the counter is non-zero and five seconds have passed (always true from the zero time). The expected number resynchronises to the block. Packets +1, bytes +len. The payload is fanned out. Nothing else changes |
| Mainloop.Mainloop.OnUdpPacket | mainloop/mainloop.go:221-244 | A nil payload changes no state. Otherwise the TS check's verdict adds to both counters without any report, the TS counter is updated, the statistics grow and the payload is fanned out. The RIST state and the report time are untouched |
| Mainloop.Mainloop.OnOutputAdded | mainloop/mainloop.go:249-253 | The first queued adapter is registered at the next index, which was unused, and the index advances by one. Every registered index stays below it, so indices are never reused |
| Mainloop.Mainloop.OnIndexRemoved | mainloop/mainloop.go:255-263 | Exactly the requested index is deleted and closed if registered; otherwise the registry is unchanged |
| Mainloop.Mainloop.OnOutputRemoved | mainloop/mainloop.go:265-278 | Some entry holding the adapter is deleted and closed when one exists; otherwise the registry is unchanged. No other entry is touched |
| Mainloop.Mainloop.Terminate | mainloop/mainloop.go:282-288 | The loop stops running, and its state invariant still holds |
| Mainloop.Mainloop.Cancel | flow/create.go:45 | The flow's context is done afterwards, so every later `AddOutput`, `RemoveOutput` or `removeOutputByID` request is dropped (mainloop/mainloop.go:66-98). No other field of the loop changes |
| Mainloop.Mainloop.Step | mainloop/mainloop.go:171-280 | One turn keeps the loop invariant. It stops the loop exactly on cancellation or a closed RIST channel. It advances the output index only for an add. It changes the registry only for registry messages, and the statistics only for packets |
| Mainloop.Mainloop.ReceiveRistBlocks | mainloop/mainloop.go:181-216 | A run of RIST blocks adds exactly `RistDiscontinuities` to the discontinuity count and one packet per block. It leaves the expected number after the run and fans the payloads out in arrival order |
| Flow.InputAdapterKind | flow/input.go:44-59 | `rist` selects the RIST input, `udp` and `rtp` select the UDP input, and every other scheme selects nothing |
| Flow.OutputAdapterKind | flow/output.go:35-47 | `udp`/`rtp` select UDP, `srt` selects SRT, `dektecasi` selects DekTec, and nothing else is accepted |
| Flow.ValidatedInputsDispatch | flow/input.go:44-59 | Every input the flow validator accepts reaches a constructor |
| Flow.ValidatedOutputsDispatch | flow/output.go:35-47 | Every output the flow validator accepts reaches a constructor |
| Flow.StartInput | flow/input.go:28-33 | A nil input starts trivially; otherwise the result is the input's own `Start` |
| Flow.EffectiveLatency | flow/create.go:54-59 | The receiver latency is never 0: a zero latency becomes 1000, any other is kept |
| Flow.DestinationPort | flow/create.go:85-88 | Port 0 for the simple profile, otherwise the stream id truncated to 16 bits (equal to it when it fits) |
| Flow.RewrittenLatencyForcesRebuild | flow/create.go:34-58 | The flow stores latency 0 while the caller's configuration now says 1000, so passing that back to `UpdateConfig` is a rebuild |
| Flow.LastWithUrl | flow/output.go:56-59 | The entry stored under a URL is an entry with that URL, present iff some entry has it |
| Flow.LastWithUrlIsLast | flow/create.go:111-115 | The stored entry is the last one with its URL: no later entry overrides it |
| Flow.EarlyFailure | flow/create.go:37-74 | Validation, statistics and receiver setup are tried in that order. Nothing fails iff all three pass, and a validation failure is wrapped as such |
| Flow.EarlyCalls | flow/create.go:36-39 | Nothing is built before validation passes |
| Flow.InputsFault | flow/create.go:77-82 | The fault of the input loop, when there is one, is an input-setup error naming an entry of the list |
| Flow.OutputsFault | flow/create.go:110-115 | The fault of the output loop, when there is one, is an output-setup error naming an entry of the list |
| Flow.InputsFaultNone | flow/create.go:77-82 | The input loop has no fault iff every input sets up, the i-th with constructor call base + i |
| Flow.OutputsFaultNone | flow/create.go:110-115 | The output loop has no fault iff every output sets up |
| Flow.InputsFaultFirst | flow/create.go:77-82 | The fault is the error of the first input that does not set up |
| Flow.OutputsFaultFirst | flow/create.go:110-115 | The fault is the error of the first output that does not set up |
| Flow.InputsFaultExists | flow/create.go:77-82 | A fault always comes from a first input that does not set up |
| Flow.OutputsFaultExists | flow/create.go:110-115 | A fault always comes from a first output that does not set up |
| Flow.WireFaultNone | flow/create.go:76-117 | No step after the receiver setup fails iff every input sets up, the receiver starts, the RIST flow is configured, the UDP inputs start and every output sets up with the constructor calls after the inputs' |
| Flow.Prepare | flow/create.go:30-74 | The steps up to the receiver produce the early failure and the calls above. The caller's latency is rewritten once validation and statistics pass |
| Flow.StartReceiving | flow/create.go:90-107 | Receiver start, then configuring the RIST flow on the port, then the main loop, then the UDP inputs. Each failure is reported as that step with exactly the calls made so far. It passes iff all three fallible steps succeed |
| Flow.CreateFlow | flow/create.go:24-118 | A flow is returned iff there is no error. It passes iff validation, statistics and receiver setup pass and no later step fails (`WireFault` is `None` from the current constructor count); once the early steps pass, a failure is exactly `WireFault`'s error. Validation, stats and receiver failures return exactly their error after their calls. On success the log is exactly statistics and receiver setup, the inputs, start, configure, main loop, UDP start, then the outputs. The new flow holds one adapter per input URL and one handle per output URL (the last entry with it), each of the scheme's kind, and stores the configuration as given. The caller's copy gets the latency default |
| Flow.CreateFaultNone | flow/create.go:24-118 | `CreateFlow` has no fault iff the configuration validates, statistics and receiver setup pass, every input sets up, the receiver starts, the RIST flow is configured, the UDP inputs start and every output sets up, with constructor calls numbered in order |
| Flow.AddFaultNone | flow/updateconfig.go:87-93 | The add loop of the diff has no fault iff every input it has to set up does, with the constructor call its turn reaches. An input must be set up when its URL was not bound and no earlier entry had it |
| Flow.AddFaultIsEntryError | flow/updateconfig.go:87-93 | A fault of the add loop is the `setupInput` error of one of its entries |
| Flow.SyncFaultNone | flow/updateconfig.go:121-137 | The reconfigure loop has no fault iff every output it has to set up does. An output must be set up when nothing with its configuration is stored under its URL at its turn, counting the entries before it |
| Flow.SyncFaultIsEntryError | flow/updateconfig.go:121-137 | A fault of the reconfigure loop is the `setupOutput` error of one of its entries |
| Flow.SyncFaultRestrict | flow/updateconfig.go:113-137 | Removing the stale outputs first does not change which outputs the loop sets up or its fault: only the configurations stored under the entries' URLs matter |
| Flow.DiffPassesWhenAllSetUp | flow/updateconfig.go:72-141 | The diff of `UpdateConfig` cannot fail when every entry's URL selects an adapter and every constructor call succeeds |
| Flow.Flow.constructor | flow/create.go:31-34 | A new flow holds the identifier and configuration and empty tables |
| Flow.Flow.SetupInput | flow/input.go:36-63 | The calls made are exactly `InputSetupCalls`: one constructor of the kind the scheme selects, none on a parse or scheme error. It passes iff the URL selects a kind and that constructor call succeeds. On success the new adapter, numbered by the constructor count, is bound under the URL, replacing any previous one, and every other key is kept. A failure reports `InputFault` (the parse or scheme error, or the constructor's) and leaves the table unchanged |
| Flow.Flow.SetupOutput | flow/output.go:25-62 | The same for outputs; the bound handle carries the entry's configuration, keyed by URL rather than identifier |
| Flow.Flow.SetupInputs | flow/create.go:77-82 | Passes iff every input sets up, the i-th with the i-th constructor call from the current count. A failure is `InputsFault`: the error of the first input that does not set up, wrapped with that input, after exactly the constructor calls up to and including it. On success the table is bound to the inputs' URL set, with kinds from the schemes, after exactly the constructor calls in order |
| Flow.Flow.SetupOutputs | flow/create.go:110-115 | Passes iff every output sets up. A failure is the error of the first output that does not, after exactly the calls up to and including it. On success the table holds, for each output URL, the last entry with it and an adapter of its kind, after exactly the constructor calls in order |
| Flow.Flow.Wire | flow/create.go:76-117 | Passes iff `WireFault` is `None`, and a failure is `WireFault`'s error: the first failing input, then receiver start, RIST flow configuration and UDP start, then the first failing output, whose constructor calls are numbered after the inputs'. On success both tables are bound to the configuration and the log is exactly inputs, start, configure, main loop, UDP start, outputs |
| Flow.Flow.RemoveStaleInputs | flow/updateconfig.go:79-84 | Exactly the inputs whose URL disappeared are deleted. Each of their adapters is closed once, in the map's order. Kept entries are unchanged |
| Flow.Flow.AddMissingInputs | flow/updateconfig.go:87-93 | Bound URLs are kept as they are. On success every input URL is bound, each added one to an adapter of its scheme's kind. Only constructor calls are made, and a failure leaves some input unbound. It fails exactly when `AddFault` is some error, with that error: the first input that has to be set up and does not. On success it made one constructor call per input set up |
| Flow.Flow.UpdateInputs | flow/updateconfig.go:72-94 | Inputs whose URL disappeared are gone with their adapter closed. Inputs whose URL stays keep the very same adapter, even if their identifier changed. On success the keys are exactly the new URL set. Only input adapters are closed. Its error is exactly `AddFault` over the table before the removal, and on success it made one constructor call per input set up |
| Flow.Flow.RemoveStaleOutputs | flow/updateconfig.go:113-118 | Exactly the outputs whose URL disappeared are deleted. Each adapter is closed once. Kept entries are unchanged |
| Flow.Flow.SyncOutput | flow/updateconfig.go:121-137 | A bound output with the same configuration is kept with no call. An unbound one is set up: exactly its constructor call. One with a different configuration is closed first, then set up: exactly the `Close` and then the constructor call. In both of those cases it passes iff the scheme selects a kind and the constructor succeeds; success binds a new adapter with the entry under the URL, and a failure reports the `setupOutput` error and leaves the URL unbound. Every other key is kept, and every handle is either carried over or of its URL's kind |
| Flow.Flow.SyncOutputs | flow/updateconfig.go:121-137 | On success each URL holds the last entry with it. An output every entry agrees with is the very same handle and is never closed, and one some entry contradicts was closed. Even on failure, every handle is carried over unchanged or holds an adapter of its URL's kind. It fails exactly when `SyncFault` is some error, with that error, and on success it made one constructor call per output set up |
| Flow.Flow.UpdateOutputs | flow/updateconfig.go:106-138 | Outputs whose URL disappeared are gone and closed even on failure, and every handle is carried over or of its URL's kind. On success the output table is reconciled as above, and an output every entry agrees with is never closed. Its error is exactly `SyncFault` over the table before the removal |
| Flow.Flow.Reconcile | flow/updateconfig.go:72-141 | Unchanged input or output lists leave their table untouched. Success stores the new configuration, and tables that held the old configuration's adapters, each of its URL's kind, then hold the new one's. A failure during inputs keeps the old configuration and outputs. A failure during outputs leaves only the new inputs stored. It fails exactly when `DiffFault` is some error, with that error: the add loop's when the inputs changed, then the reconfigure loop's, numbered after the add loop's constructor calls |
| Flow.Flow.Adopt | flow/updateconfig.go:64-66 | After taking over every field, this flow serves the configuration the new one served |
| Flow.Flow.Rebuild | flow/updateconfig.go:57-66 | The flow is stopped first. On failure it stays stopped with its configuration and tables. On success it serves the new configuration. Either way the caller's copy is what `CreateFlow` leaves it: with the latency default once validation and statistics pass. It fails exactly when `CreateFault` is some error, with that error. The log is `Stop` then the early calls, and on success then the wiring calls, exactly as `CreateFlow` makes them |
| Flow.Flow.UpdateConfig | flow/updateconfig.go:17-142 | An equal configuration changes nothing and makes no call. A changed latency, profile or stream id stops and rebuilds as `Rebuild` states, with `CreateFault`'s error and `Stop` followed by `CreateFlow`'s calls. Otherwise the input and output diff results above hold, with `DiffFault`'s error, and a successful diff of a flow whose tables matched the old configuration leaves them matching the new one. The identifier field is never changed on that path |
| Config.Flow.ValidateFlowConfig | config/config.go:102-158 | The strict validator's result is `StrictVerdict`, and it passes exactly for strictly valid flows |
| Config.Flow.ScanInputs | config/config.go:110-129 | The first failing input's error, otherwise the input identifiers in order |
| Config.Flow.ScanOutputs | config/config.go:138-155 | The first failing output's error (scheme `srt` only), otherwise the output identifiers |
| Config.StrictVerdict | config/config.go:102-158 | Passes iff the flow has an identifier, every entry has an identifier and a parseable URL of an accepted scheme, and input and output identifiers are each distinct. An empty identifier fails first |
| Config.StrictEntryErrorsComeFirst | config/config.go:110-133 | A failing input entry wins over a duplicate identifier, even one that occurs earlier |
| Config.StrictRejectsNonSrtOutputs | config/config.go:146-154 | Any output whose scheme is not `srt` (so udp, rtp, dektecasi) is refused |
| Config.CheckDuplicates | config/config.go:87-96 | Passes iff the items are pairwise distinct; otherwise names the first item seen a second time |
| Config.FirstRepeat | config/config.go:87-96 | No repeat iff distinct; a reported index repeats an earlier item after a repeat-free prefix |
| Config.FirstRepeatIsFirst | config/config.go:87-96 | A repeat after a repeat-free prefix is the one reported |
| Config.FirstFailure | config/flow.go:29-60 | None iff every entry passes; otherwise the error of the first failing entry |
| Config.FirstFailureStops | config/config.go:111-129 | Entries after the first failing one do not matter |
| Config.ValidateFlowConfig | config/flow.go:14-63 | Passes iff there is an identifier, at least one input and one output, every input URL parses with scheme rist/udp/rtp and every output URL with srt/udp/rtp/dektecasi. It fails in the order identifier, inputs, outputs. Identifiers and duplicates are not checked |
| Config.ValidatorsDisagree | config/flow.go:19-59 | The two validators are incomparable: a flow with a udp output passes this one and fails the strict one, while an empty flow does the opposite |
| Config.ValidateInfluxDB | config/influxdb.go:19-33 | (Also the identical declaration at config/config.go:37-51.) A nil section passes. An empty URL fails with "required". A non-empty URL fails iff it does not parse |
| Config.ValidateUrl | config/validatehelpers.go:18-27 | The empty text fails before parsing; otherwise the parse result or its failure |
| Config.ValidateHostPort | config/validatehelpers.go:30-44 | Passes iff the URL is present, its host splits, and host and port are non-empty; a nil URL and an unsplittable host have their own errors |
| Config.UniqueFromPassIff | config/validatehelpers.go:48-99 | Passes iff every element is an input or output with a non-empty parseable URL and the joint sequence id0, host0, id1, host1, … has no repeats (so an identifier equal to its own host fails) |
| Config.ValidateUnique | config/validatehelpers.go:48-99 | A non-slice argument fails. Otherwise the loop's verdict is the one above, in list order |
| Stats.Validate | stats/influxdb.go:32-58 | A nil config passes. Otherwise it passes iff the URL is non-empty and parses and token, org and bucket are non-empty. The first failing check in the order URL, parse, token, org, bucket decides the error |
| Stats.MeasurementsAreNotChecked | stats/influxdb.go:25-29 | Changing only the measurement names never changes the verdict |
| Srt.Clone | srt/options.go:7-16 | A nil map clones to nil. Any other map clones to a fresh map with exactly the same entries (an empty one to a non-nil empty one) |
| Srt.CloneIsIndependent | srt/options.go:11-15 | Writing to the clone leaves the original unchanged |

## Left out

- Concurrency is not modelled. This covers the goroutine of `receiveLoop`, `sync.WaitGroup` and `Wait`'s timeout, `statusLock`, and `UpdateConfig`'s `configLock` with its deferred unlock. The loop is modelled one event at a time. Go's `select` choice among ready cases is any event satisfying `Ready`.
- Channel capacities (4, 4, 16, 512) and blocking sends are not modelled: the message queues are unbounded sequences. Sending on a channel the loop has closed panics in Go; the request methods require the loop to be running or the context to be cancelled.
- The end of the loop closes the four channels; messages still queued are never processed. `Terminate` models this only as leaving the loop.
- `UDPChannel` and `NewMainloop`'s goroutine launch are channel plumbing.
- The real time source is not modelled: time is a parameter in nanoseconds.
- Logging and statistics export are side effects only.
- `m.addOutput`, `m.writeOutputs` and the `out` struct are not part of this model. Registering an output is an `Out` entry. Fan-out is the payload appended to `written`.
- The adapter constructors (RIST, UDP, SRT, DekTec), `stats.SetupStats`, `rist.SetupReceiver`, the receiver's `Start` and `ConfigureFlow`, `startUDPInputs` and `Flow.Stop` are not modelled. Each is a recorded call whose success an `Env` field decides. The DekTec stub's unconditional failure is therefore one choice among all those covered.
- `LoadFromFile` (file read and YAML decoding) is not modelled. Both validators it applies are.
- `url.Parse` and `net.SplitHostPort` are abstract parameters. `reflect.DeepEqual` is datatype equality, so a nil and an empty slice of entries are not told apart.
- `validateUnique` is given a tagged argument (`Config.Argument`) instead of an `interface{}` inspected by reflection.
- Mainloop.Mainloop.OnRistBlock: the counters are unbounded naturals; Go's `int` overflow after 2^63 packets is not modelled.
- Mainloop.Mainloop.OnUdpPacket: the copy of the payload made before fan-out is the same value here, because sequences have no aliasing.
- Mainloop.Mainloop.Step: states only what each kind of turn may change. The exact new state is in the per-case methods it calls.
- Flow.DestinationPort: the conversion of the configured profile to librist's enum type is modelled only as the comparison with `RIST_PROFILE_SIMPLE`.
- Flow.CreateFlow: the context and cancel function it creates are not modelled. Adapters bound before a later step fails are left unclosed, as in the source; the contract does not describe the tables of the discarded flow.
- Flow.Flow.AddMissingInputs: does not give the exact call log. It says that every call it makes is a constructor call and how many there are.
- Flow.Flow.UpdateInputs: says that kept inputs keep the same adapter, and that each removed adapter is closed somewhere in the log, and only input adapters are. It does not say that no `Close` names a kept input; only `RemoveStaleInputs` states the exact closes.
- Flow.Flow.UpdateOutputs: on failure states only that vanished outputs were closed and removed and that every handle is carried over or of its URL's kind, not the state of the partly reconfigured table.
- Flow.Flow.Reconcile: on failure states which stored configuration remains and which table is untouched, not the exact tables.
- Flow.Flow.UpdateConfig: inherits the failure-case weakening of `Reconcile` and `UpdateOutputs`. `f.Wait` after `Stop` is not modelled.
- Config.ValidateInfluxDB: `config/config.go` and `config/influxdb.go` declare the same `InfluxDB` type and `Validate` with identical behaviour; one model serves both.
- The YAML tags, and the configuration fields only YAML decoding touches, are not modelled: `Config.identifier`, `listenhttp` and the flow list of the root configuration.
