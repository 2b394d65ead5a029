# Cairn models and proofs

Models of the parts of Cairn where a mistake would be quiet: the graph surgery
that converts a quantized model's inputs and outputs to bytes, the detect
plugin's pipeline from hardware probe to protocol line, and four fast
algorithms with simple meanings. Each model takes the form its source has:
objects that update their fields are classes, loops are loops, and each method
is proved against a function whose properties are then proved for all inputs,
all runs or all interleavings.

`dafny verify dfyconfig.toml` checks everything.

## The modules

| module | what it models |
|---|---|
| `QdqGraph`, `QdqCodes` | a flat computation graph, what running it means, and the 8-bit affine |
| `QdqEntry`, `QdqWalk`, `QdqEdits` | entry surgery: the rewriting and its meaning, the walk and its guards, the edits in place |
| `QdqExit`, `QdqSurgery` | exit surgery output by output; the tool with its three modes and the host's side |
| `QdqGuards`, `QdqBoth` | what the tool accepts and edits, in the operators' own names; the two surgeries in turn |
| `Control`, `Gate`, `Telemetry`, `Emit` | the epoch table, the motion gate's policy, its reports, the publisher of lines |
| `CameraRun`, `Pipeline` | one camera over a whole run; all cameras and the control thread interleaved |
| `Motion`, `Thumbnail` | the rolling background and its calibration; the grayscale downsample |
| `LatestSlot` | the newest-wins handoff between decode threads and the inference thread |
| `ClaimProtocol`, `HwProbe`, `DecoderTrace`, `ProbeStory` | the claim and latch protocol, the deferred probe, whole packet traces, which backends it tries and when it may stop |
| `EagerOpen`, `ProbeSteps` | the blocking open; both kinds of caller interleaved step by step |
| `AnnexB` | the NAL unit scanner and printer of ITU-T H.264 Annex B |
| `Calendar`, `Timestamp` | the proleptic Gregorian calendar without a table; RFC 3339 timestamps |
| `Fp32Islands` | union-find with path halving over the unfused nodes |
| `TrackOverlay`, `Pairing` | the overlay's stateful cursor; the greedy in-order evidence pairing |

## How the models read

A graph is well-formed when every name is defined once and before it is read,
graph inputs and initializers are different names, output names are distinct
and defined, intermediate declarations name neither inputs nor outputs, and a
quantizer or dequantizer has data, a scale and one output. Every operator that
is not a per-tensor uint8 quantizer or dequantizer is an arbitrary function of
its operands; of six of them it is asked, as ONNX defines them, that they choose
elements of their first operand by its shape and their other operands, and every
theorem holds for all such meanings. An open, a poll of an open, a model pass
and a clock are parameters: the proofs hold for every answer they could give.
Instants are integers, in nanoseconds or milliseconds, and single- or
double-precision numbers are reals.

## Where the code and its documentation differ

The models follow the code.

- `open_hw_bounded` documents a budget of two deadlines for waiting out
  another probe and the caller's own open. The wait for the answer is always
  one whole deadline, so a call that opens passes the budget exactly when it had
  the claim later than one deadline in; the time is looked at only on a pass that
  found the claim taken, so any other call passes it exactly when its last pass
  was past it (`EagerOpen.WaitWithinBudgetIff`, `EagerOpen.WaitCanPassBudget`).
  A refusal as busy keeps the budget only when its last pass was exactly at it
  (`EagerOpen.BusyWithinBudgetIff`).
- The gate documents the re-verify interval as the bound on how long a seed can
  outlive its object. That holds for every configuration as long as timestamps
  are in range and no epoch comes back (`CameraRun.SeedsAreFresh`), as none does
  while every stream is announced under a new one (`Pipeline.EpochsNeverReturn`).
  Over arbitrary control lines, where an ended epoch may be announced again, it
  holds on steady input exactly for configurations with a bypass window or that
  re-verify every sample (`CameraRun.AlwaysFreshIff`). A pass whose line is
  suppressed stamps the gate without refreshing the memory, so neither condition
  can be dropped (`CameraRun.StaleAfterSuppression`).
- The FP32 regions are documented as connected regions. An omitted optional
  input or output is spelled with the empty name, and the lookups of consumers
  and producers do not pass over it, so an omitted output and an omitted input
  can take a node out of its bracket (`Fp32Islands.OmissionUnfuses`) and put two
  nodes that share no tensor in one region (`Fp32Islands.OmissionJoins`). When
  they do is exact (`Fp32Islands.FusedIsBracketedIff`,
  `Fp32Islands.RegionsAreEdgeComponentsIff`); they do not where every output is
  named.
- A backend whose open timed out is documented as never probed again. The latch
  read and the claim are separate operations, so a caller between the two can
  still open it (`ProbeSteps.LatchedIsOpenedAgain`), at most once each
  (`ProbeSteps.WorldSpawnBound`); it is never opened again exactly from the
  states where no caller is past its latch read with its open still to start
  (`ProbeSteps.WorldLatchIsFinalIff`).
- The surgery's refusal of a graph with no reachable quantizer cannot happen
  once its other guards have passed (`QdqEntry.StemOkReachesQuantizer`).
- Two surgeries that each succeed on a graph need not both succeed on it in
  turn: exit codes made by an entry quantizer become that quantizer's source.
  They are refused when the source is the graph's input, which no node produces
  (`QdqBoth.BothCanRefuse`), and when something else left reads the source
  (`QdqBoth.TwinsRefused`), and in no other case (`QdqBoth.BothSucceedIff`).

## Model

| member | source | states |
|---|---|---|
| `QdqSurgery.SurgeryPreservesMeaning` | tools/qdq-export/u8_io_surgery.py:275-305 | Whenever the surgery succeeds, in any mode, the new graph is well-formed, and quantizing the input as the sidecar says, running it and dequantizing the outputs as the sidecar says gives exactly the old graph's outputs: for every feed and every meaning of the operators under which Slice, Transpose, Reshape, Identity, Squeeze and Unsqueeze move data |
| `QdqSurgery.SurgeryKeepsTypes` | tools/qdq-export/u8_io_surgery.py:186-248 | If every declared element type of the old graph was the type of what it computed, and the exit dequantizers read uint8 codes in that run, every declared type of the new graph is the type of what it computes |
| `QdqSurgery.SidecarScale` | tools/qdq-export/u8_io_surgery.py:92-97 | An input quantization told to the host always has a positive scale, so the host formula is defined |
| `QdqGuards.ConvertibleIff` | tools/qdq-export/u8_io_surgery.py:100-173 | Entry surgery accepts exactly the graphs with one float input whose every tensor reached by a path of the six data-movement operators is no output, is read, and is read as data only by one of the six or by QuantizeLinear making no output, and whose quantizers of reached tensors give one set of parameters |
| `QdqGuards.OtherOperatorRefused` | tools/qdq-export/u8_io_surgery.py:159-166 | A reader of a reached tensor that is none of the seven named operators is refused in every mode that touches the input |
| `QdqGuards.StemIsReached` | tools/qdq-export/u8_io_surgery.py:113-161 | What the walk covers is exactly what some path of the six operators reaches from the input |
| `QdqGuards.ScalarQparamsIff` | tools/qdq-export/u8_io_surgery.py:72-97 | Parameters are taken exactly from an explicit scalar uint8 zero point and a positive scalar scale, both initializers, and are those |
| `QdqGuards.WhyNoParams` | tools/qdq-export/u8_io_surgery.py:77-96 | Each refusal of parameters is for its own reason, in the order they are looked for |
| `QdqGuards.ExportableIff` | tools/qdq-export/u8_io_surgery.py:209-237 | Exit surgery accepts exactly the graphs whose every output is unread and made by DequantizeLinear, with acceptable parameters, from codes some node makes and no other node reads |
| `QdqGuards.SidecarTells` | tools/qdq-export/u8_io_surgery.py:243-248 | What the host is told of an output are its own dequantizer's parameters |
| `QdqGuards.AcceptedIff` | tools/qdq-export/u8_io_surgery.py:308-335 | Success in each mode, spelled out: opset 13 or later, no run-time quantization, and the conditions of the surgeries the mode asks for |
| `QdqGuards.EntryDeletes` | tools/qdq-export/u8_io_surgery.py:175-186 | Entry surgery deletes the quantizers of the input and nothing else, in order, each other node keeping its operator and outputs, and retypes the input alone |
| `QdqGuards.RedirectIs` | tools/qdq-export/u8_io_surgery.py:177-182 | A reader of a deleted quantizer's output reads that quantizer's source, and every other reader what it read |
| `QdqGuards.EntryRedeclares` | tools/qdq-export/u8_io_surgery.py:187-196 | Exactly the declarations of deleted outputs go; the others stay in order, as bytes exactly if reached |
| `QdqGuards.ExitDeletes` | tools/qdq-export/u8_io_surgery.py:235-242 | Each step of exit surgery deletes one dequantizer and nothing else, gives its codes the output's name, and retypes that output alone |
| `QdqGuards.ExitForgets` | tools/qdq-export/u8_io_surgery.py:245-247 | Exactly the declarations of the codes' old name go, the rest kept in order |
| `QdqGuards.ExportForgets` | tools/qdq-export/u8_io_surgery.py:245-247 | After any number of outputs, a declaration stays exactly when it is of none of the codes handed over |
| `QdqSurgery.ModelGraph.Convert` | tools/qdq-export/u8_io_surgery.py:316-335 | Refuses an old operator set and run-time quantization, then performs the surgeries of the mode in place, entry first; it succeeds exactly when some sidecar and graph are acceptable, and a success is one of those |
| `QdqSurgery.ModelGraph.EntrySurgery` | tools/qdq-export/u8_io_surgery.py:100-197 | Succeeds exactly on the graphs whose whole stem passes the guards and whose entry quantizers share one parameter set; the graph then is the declared rewriting, and a refused graph is untouched |
| `QdqSurgery.ModelGraph.ExitSurgery` | tools/qdq-export/u8_io_surgery.py:200-248 | Succeeds exactly when every output passes its checks against the graph as given; every exit dequantizer is then gone and each output has its own parameters |
| `QdqSurgery.ModelGraph.RewireEdges` | tools/qdq-export/u8_io_surgery.py:175-182 | Redirecting readers quantizer by quantizer, in the order found, is one renaming of every input |
| `QdqSurgery.ModelGraph.RemoveEdges` | tools/qdq-export/u8_io_surgery.py:176-184 | Exactly the makers of the quantizers' outputs are removed, and those outputs are reported dead |
| `QdqSurgery.ModelGraph.RetypeInfo` | tools/qdq-export/u8_io_surgery.py:187-196 | Dead intermediate values are forgotten and traversed ones are retyped, the rest kept in order |
| `QdqSurgery.ModelGraph.EditExit` | tools/qdq-export/u8_io_surgery.py:233-247 | One output's dequantizer goes, its codes take the output's name, the output becomes uint8 and the code tensor's declaration is dropped |
| `QdqSurgery.SharedQparams` | tools/qdq-export/u8_io_surgery.py:170-173 | One parameter set exactly when every entry quantizer has it; otherwise no set is common to them all |
| `QdqSurgery.CheckOutput` | tools/qdq-export/u8_io_surgery.py:210-237 | An output passes exactly when it is dequantized, unread, from codes only that dequantizer reads and some node makes, by scalar uint8 parameters; and those are the parameters returned |
| `QdqBoth.BothAcceptIff` | tools/qdq-export/u8_io_surgery.py:100-248 | Of a graph entry surgery accepts, exit surgery accepts the result if and only if it accepts the graph and every output is relayed: codes made by an entry quantizer come from a source other than the input that nothing else left reads, under its own name or another deleted output's |
| `QdqBoth.BothSucceedIff` | tools/qdq-export/u8_io_surgery.py:316-335 | The tool converts both ends if and only if it converts each end alone and every output is relayed |
| `QdqBoth.OutputOkIff` | tools/qdq-export/u8_io_surgery.py:209-237 | One output passes its checks after entry surgery if and only if it passed them before and is relayed |
| `QdqBoth.BothCanRefuse` | tools/qdq-export/u8_io_surgery.py:332-335 | A concrete graph each surgery accepts alone and both together refuse, because the quantizer's source is the input and no node produces it |
| `QdqBoth.TwinsRefused` | tools/qdq-export/u8_io_surgery.py:332-335 | Another the tool converts at either end and not at both: two quantizers of one moved tensor, whose dequantizers come to read the same codes |
| `QdqWalk.Walk` | tools/qdq-export/u8_io_surgery.py:119-168 | The frontier walk succeeds if and only if every tensor of the stem passes its checks; it then has traversed exactly the stem and found exactly the entry quantizers, at least one; a refusal names a real violation |
| `QdqWalk.Visit` | tools/qdq-export/u8_io_surgery.py:136-166 | Visiting one tensor's readers adds exactly what its data-movement readers make and exactly its quantizers, or names a reader that breaks a rule |
| `QdqWalk.CheckReader` | tools/qdq-export/u8_io_surgery.py:141-166 | A reader passes if it reads the tensor as data only and is data movement or a quantizer that makes no graph output; otherwise the named rule is broken |
| `QdqWalk.StemOkHasNoViolation` | tools/qdq-export/u8_io_surgery.py:121-166 | No refusal of the walk can be about a graph whose stem passes |
| `QdqWalk.ClosedHoldsStem` | tools/qdq-export/u8_io_surgery.py:120-161 | Any set holding the input and closed under data movement holds the whole stem, so the frontier being empty means the walk is complete |
| `QdqEntry.EntryPreservesMeaning` | tools/qdq-export/u8_io_surgery.py:100-197 | On quantized input the rewritten graph's outputs equal the old graph's, for every feed and every kernel |
| `QdqEntry.EntryKeepsWellFormed` | tools/qdq-export/u8_io_surgery.py:175-196 | The rewritten graph still defines every name once and before it is read |
| `QdqEntry.EntryKeepsTypes` | tools/qdq-export/u8_io_surgery.py:186-196 | Declared types that were true of the old run are, after retyping, true of the new run |
| `QdqEntry.RunSimulates` | tools/qdq-export/u8_io_surgery.py:24-33 | After every prefix of the nodes: stem tensors hold the codes of their old values, a deleted quantizer's output is found at its source, every other tensor is equal |
| `QdqEntry.OnStemCarries` | tools/qdq-export/u8_io_surgery.py:24-28 | A data-movement node on the stem computes, from codes, the codes of what it computed from values |
| `QdqEntry.OffStemAgrees` | tools/qdq-export/u8_io_surgery.py:137-145 | A node off the stem has the same operands in both runs: the data-slot guard keeps codes out of every other slot |
| `QdqEntry.StemOkReachesQuantizer` | tools/qdq-export/u8_io_surgery.py:167-168 | The walk's last refusal, no quantizer reachable, never fires once the other guards pass |
| `QdqEdits.FoldIsRedirect` | tools/qdq-export/u8_io_surgery.py:175-182 | Rewiring one quantizer at a time, in any order, sends each reader where the simultaneous rewriting does |
| `QdqEdits.EditsAreEntry` | tools/qdq-export/u8_io_surgery.py:175-184 | The edits one after another leave exactly the nodes of the declared rewriting, in order |
| `QdqEdits.TraversedRetypes` | tools/qdq-export/u8_io_surgery.py:187-196 | Retyping what the walk traversed retypes the same declarations as retyping the stem |
| `QdqExit.ExitPreservesMeaning` | tools/qdq-export/u8_io_surgery.py:200-248 | Dequantizing each output of the rewritten graph gives the old output, for every feed and every kernel |
| `QdqExit.OneOutputRewritten` | tools/qdq-export/u8_io_surgery.py:233-243 | Rewriting one output hands over its codes under its name and changes nothing else the graph computes |
| `QdqExit.ExitKeepsWellFormed` | tools/qdq-export/u8_io_surgery.py:200-248 | After all outputs are rewritten each name is still defined once and before it is read |
| `QdqExit.ExitKeepsTypes` | tools/qdq-export/u8_io_surgery.py:242-247 | Declared types stay true, given that every dequantized output came from uint8 codes |
| `QdqExit.StillOk` | tools/qdq-export/u8_io_surgery.py:202-241 | Rewriting one output leaves the checks of the outputs still to come, and their dequantizers, as they were in the given graph |
| `QdqCodes.Rint` | tools/qdq-export/u8_io_surgery.py:264-264 | Nearest integer, ties to even: never more than half away, and even when exactly half away |
| `QdqCodes.CodesAreSteps` | tools/qdq-export/u8_io_surgery.py:35-38 | The zero point stands for zero, and each code for one scale step more than the one before |
| `QdqCodes.RintUnique` | tools/qdq-export/u8_io_surgery.py:264-264 | No other integer is nearest with ties to even |
| `QdqCodes.CodeRoundTrip` | tools/qdq-export/u8_io_surgery.py:35-38 | Every code 0..255 dequantizes to a value that quantizes back to it |
| `QdqCodes.ValueRoundTrip` | tools/qdq-export/u8_io_surgery.py:35-38 | A value in the representable range comes back within half a scale step |
| `QdqCodes.Saturates` | tools/qdq-export/u8_io_surgery.py:264-265 | Values at or beyond either end of the range become 0 and 255 |
| `QdqCodes.TensorRoundTrip` | tools/qdq-export/u8_io_surgery.py:298-298 | A whole uint8 tensor read back by the host formula quantizes to itself |
| `QdqCodes.QuantizeIsStable` | tools/qdq-export/u8_io_surgery.py:35-38 | Quantizing, reading the codes back and quantizing again gives the same codes, whatever the tensor |
| `QdqCodes.SelectionCommutes` | tools/qdq-export/u8_io_surgery.py:27-28 | Selecting elements commutes with a per-tensor quantization |
| `Pipeline.SampleLine` | plugins/cairn-detect/src/gate.rs:345-388 | One sample, with any control lines folded in between its two epoch reads, changes the gate, the telemetry and only that camera's publisher state as the declared handling says, and returns that line and report |
| `Pipeline.SampleIsThreeSteps` | plugins/cairn-detect/src/gate.rs:345-388 | That change of gate, telemetry, publisher and epoch table is the interleaved system deciding the sample, folding in each control line and publishing the line, one after the other |
| `CameraRun.PassesIffPolicy` | plugins/cairn-detect/src/gate.rs:364-386 | A camera without a gate runs the model on every sample, and one with a gate exactly on those the declared policy says, by the epoch the gate read |
| `CameraRun.LineIsFrame` | plugins/cairn-detect/src/gate.rs:380-386 | A sample's line, field by field, is the frame of what the model found on it, or of what is remembered, by the epoch the publisher read |
| `Pipeline.EveryCameraFollows` | plugins/cairn-detect/src/gate.rs:345-388 | In every interleaving of cameras and control lines, each camera goes through exactly the run of the samples it saw on its own |
| `Pipeline.CamerasAreIndependent` | plugins/cairn-detect/src/emit.rs:403-411 | Two runs that agree on what concerns a camera leave it with the same state and lines, whatever other cameras exist, do or are configured to |
| `Pipeline.EveryCameraIsNumbered` | plugins/cairn-detect/src/emit.rs:525-526 | On the wire each camera's lines are numbered 0, 1, 2, ... and its samples are its lines plus its two counts of suppressions |
| `Pipeline.EveryCameraReports` | plugins/cairn-detect/src/gate.rs:369-379 | In every interleaving the states a camera reports are the runs of the states of its own windows, and a camera whose gate is off reports nothing |
| `Pipeline.EpochsNeverReturn` | docs/archive/plugin-contract.md:473-502 | If the host never takes a camera back to an epoch it has left, the publisher never reads one again after another, however control lines and samples interleave |
| `Pipeline.EveryObjectIsFresh` | plugins/cairn-detect/src/gate.rs:90-92 | In every such interleaving, every object on every line of every camera was found by the model on that very sample, or on one less than the re-verify bound before |
| `CameraRun.LinesAreNumbered` | plugins/cairn-detect/src/emit.rs:489-526 | Over every run the sequence numbers have no gap and no repeat, and every sample is one line or one suppression counted under its actual cause |
| `CameraRun.MemoryIsSeeds` | plugins/cairn-detect/src/emit.rs:518-553 | The memory holds the seeds of what the last inferred line carried if every line since bore its epoch, and nothing otherwise |
| `CameraRun.SkippedLineIsSeeded` | plugins/cairn-detect/src/emit.rs:518-555 | A skipped sample's objects are those seeds cut to the line budget, and the line is empty whenever its epoch differs, even when the epoch changed between the sample's two reads |
| `CameraRun.SeededObjectWasFound` | plugins/cairn-detect/src/emit.rs:336-348 | Every seeded object has the class, score and place of one a model pass found at or above its floor and put on the wire under the same epoch; it comes back as a track without its embedding |
| `CameraRun.SkipFollowsPass` | plugins/cairn-detect/src/gate.rs:146-158 | A skipped sample is less than the re-verify bound after the last model pass, whether or not that pass's line was emitted |
| `CameraRun.SuppressedPass` | plugins/cairn-detect/src/gate.rs:345-388 | If the seeds' source is not the last pass, every pass since had its line suppressed |
| `CameraRun.EpochHolds` | plugins/cairn-detect/src/gate.rs:138-155 | With a bypass window of any length the gate's epoch cannot change between passes |
| `CameraRun.SeedsAreFresh` | plugins/cairn-detect/src/gate.rs:90-92 | For every configuration, and whatever the two reads of the epoch table saw, every seeded object was found less than the re-verify bound earlier, provided timestamps are in range and no epoch comes back |
| `CameraRun.SteadySeedsAreFresh` | plugins/cairn-detect/src/gate.rs:90-92 | With a bypass window the bound holds on steady runs even where an ended epoch is announced again |
| `CameraRun.AlwaysFreshIff` | plugins/cairn-detect/src/gate.rs:90-92 | Over steady runs where an ended epoch may be announced again, the bound always holds if and only if the bypass window is positive or the re-verify interval is zero |
| `CameraRun.StaleWithoutBypass` | plugins/cairn-detect/src/gate.rs:138-158 | A three-sample run, its epoch ended and announced again, that re-reports a box older than the bound when there is no bypass window |
| `CameraRun.StaleAfterSuppression` | plugins/cairn-detect/src/emit.rs:489-516 | For any gated configuration each condition of the bound is needed: an out-of-range pts alone makes a seed stale, and so does an ended epoch announced again |
| `Gate.GateKeeper.Decide` | plugins/cairn-detect/src/gate.rs:123-159 | The decision and the whole new state are the declared policy step; a camera whose gate is off keeps its state |
| `Gate.DecisionIsPolicy` | plugins/cairn-detect/src/gate.rs:123-159 | Over any history in time order, the running gate decides exactly what the declarative policy says of all samples so far |
| `Gate.GateFollowsHistory` | plugins/cairn-detect/src/gate.rs:123-159 | The gate's four fields are exactly the last motion, last pass, last epoch change and current epoch of the history |
| `Gate.WithinIffRecent` | plugins/cairn-detect/src/gate.rs:400-402 | A window holds if and only if some earlier sample of its kind lies strictly inside it |
| `Gate.NeverGatedWhileLearning` | plugins/cairn-detect/src/gate.rs:101-109 | Over any run of frames, detector reopens included, a skipped sample was measured by a detector past its learning window: since it was opened and since the picture last changed size, some frame came after ten others and five seconds past the earliest dated one |
| `Gate.SkipIsStill` | plugins/cairn-detect/src/gate.rs:145-147 | Over any history a skipped sample has a verdict, and it says neither motion nor calibrating nor scene cut |
| `Gate.CutIsNeverGated` | plugins/cairn-detect/src/gate.rs:110-113 | A frame more than four fifths of whose pixels moved past the threshold always runs the model |
| `Gate.CalibratingIff` | plugins/cairn-detect/src/gate.rs:101-109 | A verdict is marked calibrating exactly when no frame of its detector has ended the learning window yet |
| `Telemetry.Reporter.Observe` | plugins/cairn-detect/src/gate.rs:247-308 | One sample changes the window counters, the peak and the reported state as declared and returns that report |
| `Telemetry.ReportMeans` | plugins/cairn-detect/src/gate.rs:265-308 | A report is sent exactly when a window closes in a state other than the previous window's, and its counts, peak, interval and previous state are exact |
| `Telemetry.InferredIn` | plugins/cairn-detect/src/gate.rs:269-273 | Fewer passes than samples in a window if and only if some counted sample was skipped |
| `Telemetry.ReportsAreRuns` | plugins/cairn-detect/src/gate.rs:213-216 | The reported states are the run-length encoding of the states of the closed windows |
| `Telemetry.EveryReportTells` | plugins/cairn-detect/src/gate.rs:265-308 | Each report sent, in order, names its state and carries the exact counts of a window that closed |
| `Telemetry.ReportsAlternate` | plugins/cairn-detect/src/gate.rs:213-216 | Two reports in a row name opposite states |
| `Telemetry.ReportsAreSpaced` | plugins/cairn-detect/src/gate.rs:162-172 | Any two reports are at least five seconds apart |
| `Telemetry.RatesAreBounded` | plugins/cairn-detect/src/gate.rs:274-283 | Both rates are finite, inferred never exceeds sampled, and they are equal exactly for a detecting window |
| `Telemetry.RatesAreCounts` | plugins/cairn-detect/src/gate.rs:274-283 | Each rate times the window's length is the window's count |
| `Telemetry.StateIsSummary` | plugins/cairn-detect/src/gate.rs:217-234 | The running counters summarize exactly the samples after the one that opened the window |
| `Emit.Publisher.Emit` | plugins/cairn-detect/src/emit.rs:480-555 | One frame changes only its own camera's entry, to the declared state, and yields the declared line or none |
| `Emit.FrameOf` | plugins/cairn-detect/src/emit.rs:480-555 | The branches of one frame, step by step, equal the declared frame |
| `Emit.EmittedMeans` | plugins/cairn-detect/src/emit.rs:480-555 | A frame without an epoch, or with a timestamp beyond the 62-bit bound, is counted and nothing else; any other is one line of its own camera, epoch, time and number, with the longest list within 64 objects and 65 536 bytes of what was found or is remembered under that epoch |
| `Emit.ObjectsLine` | plugins/cairn-detect/src/emit.rs:256-289 | The line carries the longest prefix that is within the object cap and the byte budget, and every longer allowed prefix is over the budget |
| `Emit.KeptOf` | plugins/cairn-detect/src/emit.rs:264-288 | The kept count fits and no larger one under the cap does |
| `Emit.SeedsAreEvidence` | plugins/cairn-detect/src/emit.rs:336-348 | Every seed has the class, score and place of a box that was evidence, marked tracked and without embedding |
| `Emit.SeedsAreTheEvidence` | plugins/cairn-detect/src/emit.rs:336-348 | Position by position the seeds re-report the evidence boxes, field by field, each exactly once and nothing else |
| `Emit.SeedsAreStable` | plugins/cairn-detect/src/emit.rs:339-348 | Seeding seeds changes nothing |
| `Control.Streams.Apply` | plugins/cairn-detect/src/control.rs:139-176 | One control line updates the table as declared: unserved cameras are ignored, a start replaces, an end clears only the epoch it names |
| `Control.EpochFollowsHistory` | plugins/cairn-detect/src/control.rs:139-176 | A camera's epoch is determined by its own announcements alone; the set of served cameras never changes |
| `Control.BounceEitherOrder` | plugins/cairn-detect/src/control.rs:132-138 | An end of the old epoch and a start of the new one leave the new epoch in either order |
| `Motion.MotionDetector.Observe` | plugins/cairn-detect/src/motion.rs:446-527 | One frame changes background, frame count, window start and calibration as declared and returns that verdict |
| `Motion.MotionDetector.TakeBackground` | plugins/cairn-detect/src/motion.rs:532-537 | The background becomes the picture itself, geometry included |
| `Motion.BackgroundStaysInRange` | plugins/cairn-detect/src/motion.rs:446-537 | Every background pixel stays within 0..255 through any frame |
| `Motion.VerdictMeans` | plugins/cairn-detect/src/motion.rs:472-529 | Motion, calibrating and scene cut are told apart; motion is reported only of a calibrated background and a fraction between the two limits; calibration survives until the geometry changes |
| `Motion.VerdictIsOfPixels` | plugins/cairn-detect/src/motion.rs:472-529 | The fraction is that of the pixels that moved by more than the threshold in either direction; a calibrated detector reports motion exactly when at least the least area and at most four fifths of them did, and a cut exactly when more did; a cut replaces the background, and otherwise each pixel moves its share towards the picture |
| `Motion.FractionIsMoved` | plugins/cairn-detect/src/motion.rs:474-480 | The changed fraction is the number of pixels that moved by more than the threshold, brighter or darker, over all of them |
| `Motion.NewSizeStartsOver` | plugins/cairn-detect/src/motion.rs:446-459 | A picture of another size replaces background, count, window and calibration and reports nothing |
| `Motion.CalibratedIff` | plugins/cairn-detect/src/motion.rs:460-471 | A detector is calibrated if and only if, since the last change of geometry, some frame came after ten others and five seconds past the earliest dated one, backward clock jumps included |
| `Motion.SaturationIsInvisible` | plugins/cairn-detect/src/motion.rs:466-470 | The saturating subtraction never changes the window test for 64-bit instants |
| `Motion.HeldComesNear` | plugins/cairn-detect/src/motion.rs:514-521 | After n frames of one picture each pixel is within 255/(1+na) of it, whatever the state before |
| `Motion.HeldPictureIsAbsorbed` | plugins/cairn-detect/src/motion.rs:474-521 | A picture held long enough reads as unchanged: fraction 0, no motion, no cut |
| `Thumbnail.FromRgb24` | plugins/cairn-detect/src/motion.rs:329-352 | The thumbnail has the declared geometry and each pixel is the mean luma of its box, rounded down |
| `Thumbnail.BoxesPartition` | plugins/cairn-detect/src/motion.rs:332-338 | Each source row or column is in exactly one box |
| `Thumbnail.BoxesAreTight` | plugins/cairn-detect/src/motion.rs:334-338 | No box is empty and each ends where the next starts, so the widening guard never acts |
| `Thumbnail.MeanWithinBox` | plugins/cairn-detect/src/motion.rs:346-348 | Each thumbnail value lies between the least and greatest luma of its box divided by 256, hence in 0..255 |
| `Thumbnail.MeanIsFloor` | plugins/cairn-detect/src/motion.rs:346-348 | Each thumbnail value is the mean luma of its box rounded down |
| `Thumbnail.RectIsBoxes` | plugins/cairn-detect/src/motion.rs:332-338 | A thumbnail pixel's rectangle is exactly the pixels that fall in its column's and row's boxes |
| `Thumbnail.BoxOfOne` | plugins/cairn-detect/src/motion.rs:338-345 | The sum over one pixel is its luma |
| `Thumbnail.BoxIsCutAcross` | plugins/cairn-detect/src/motion.rs:338-345 | The sum over a box is the sum over its parts left and right of any column |
| `Thumbnail.BoxIsCutDown` | plugins/cairn-detect/src/motion.rs:338-345 | The sum over a box is the sum over its parts above and below any row |
| `Thumbnail.PixelIsRgb` | plugins/cairn-detect/src/motion.rs:339-343 | A pixel's luma is of its three bytes, red first, in its own row |
| `Thumbnail.LumaIsBt601` | plugins/cairn-detect/src/motion.rs:359-366 | The luma is within half a level of 0.299 red, 0.587 green and 0.114 blue, and exact on greys |
| `Thumbnail.ThumbKeepsShape` | plugins/cairn-detect/src/motion.rs:383-388 | The thumbnail is as wide as the content up to 96 and keeps its shape, rounded down to at least one row |
| `Thumbnail.Luma256` | plugins/cairn-detect/src/motion.rs:359-366 | The scaled luma lies between 256 times the least and the greatest channel, so grey stays grey and white stays white |
| `Thumbnail.SumBox` | plugins/cairn-detect/src/motion.rs:338-345 | The nested loops compute the box sum |
| `Thumbnail.SumFitsIff` | plugins/cairn-detect/src/motion.rs:338-348 | No picture of a given size makes the sum of a given box leave 32 bits if and only if that box covers at most 65 793 pixels; otherwise the white one does |
| `Thumbnail.SumFitsUpTo16384` | plugins/cairn-detect/src/motion.rs:338-348 | No sum or divisor leaves 32 bits for content up to 16 384 wide, of any height |
| `LatestSlot.StepKeepsInv` | plugins/cairn-detect/src/multiplex.rs:366-447 | Every step of every thread keeps the slot invariant: values accounted for once, wakeups not lost, dropped slots drained |
| `LatestSlot.NoLostWakeup` | plugins/cairn-detect/src/multiplex.rs:373-383 | In every interleaving a finished offer still in the slot has its token queued on a live slot, or the consumer is about to look |
| `LatestSlot.FinishedOfferIsDelivered` | plugins/cairn-detect/src/multiplex.rs:373-383 | Progress: once an offer is finished, after any further steps of any threads short of a look inside its slot, at most three steps of the consumer alone deliver that offer or a newer one |
| `LatestSlot.ProducerGoesOn` | plugins/cairn-detect/src/multiplex.rs:373-383 | A live producer can always take its next step and, after both halves of an offer, offer again |
| `LatestSlot.OffersConserved` | plugins/cairn-detect/src/multiplex.rs:366-383 | Every offered value is exactly one of delivered, replaced or pending, and deliveries are strictly increasing |
| `LatestSlot.TakesNewest` | plugins/cairn-detect/src/multiplex.rs:366-371 | A take delivers nothing or the newest value offered so far |
| `LatestSlot.FinishedOffersPrecedeRetirement` | plugins/cairn-detect/src/multiplex.rs:421-447 | When a slot is dropped every finished offer was delivered or replaced; only an offer its producer died inside can remain |
| `LatestSlot.Handoff.OfferValue` | plugins/cairn-detect/src/multiplex.rs:374-382 | An uninterrupted offer is a replace and a signal, and reports whether the slot was free |
| `LatestSlot.Handoff.ReplacePending` | plugins/cairn-detect/src/multiplex.rs:374-375 | The value goes in and the answer tells whether an untaken one was dropped |
| `LatestSlot.Handoff.TrySend` | plugins/cairn-detect/src/multiplex.rs:376-380 | A full channel is left as it is: the queued wakeup serves this value too |
| `LatestSlot.Handoff.ReceiveAt` | plugins/cairn-detect/src/multiplex.rs:428-443 | A token makes the consumer look in that slot; a drained channel without its sender drops the slot |
| `LatestSlot.Handoff.TakePending` | plugins/cairn-detect/src/multiplex.rs:366-371 | The value, if any, is taken and recorded as delivered |
| `LatestSlot.Handoff.Next` | plugins/cairn-detect/src/multiplex.rs:421-447 | The loop is a terminating run of the protocol: a value handed over left its slot and no other value moved; otherwise nothing moved, and every slot is gone or none is ready |
| `HwProbe.PendingHw.Advance` | plugins/cairn-detect/src/decode.rs:801-931 | One access unit advances the probe, the claims, the latch and the spawned opens exactly as the declared step; the loop terminates on backends left, then stage |
| `HwProbe.PendingHw.Loop` | plugins/cairn-detect/src/decode.rs:828-930 | The loop over stages equals the declared iteration |
| `HwProbe.PendingHw.Claim` | plugins/cairn-detect/src/decode.rs:836-869 | A turn of one backend: latched ones are skipped, a taken claim is waited for, a free one is claimed and its open spawned or the claim released |
| `HwProbe.PendingHw.PollOpen` | plugins/cairn-detect/src/decode.rs:870-918 | A look at the open: an answer hands over or moves on, silence past the deadline latches the backend, and each exit releases the claim |
| `HwProbe.DeferredHwDecoder.SendPacket` | plugins/cairn-detect/src/decode.rs:943-956 | One packet changes the decoder, the shared flags and the opens as declared, and its outcome follows from what is then active |
| `HwProbe.DeferredHwDecoder.Consider` | plugins/cairn-detect/src/decode.rs:754-775 | The probe's verdict is applied: wait, hand over, or settle; a finished probe is gone |
| `HwProbe.DeferredHwDecoder.SettleOnSoftware` | plugins/cairn-detect/src/decode.rs:779-793 | A required backend that did not open is refusal; otherwise software goes on |
| `HwProbe.PacketPerforms` | plugins/cairn-detect/src/decode.rs:801-931 | A packet sent to one decoder is a run of the claim protocol by that caller alone, between calls at both ends |
| `HwProbe.FleetClaims` | plugins/cairn-detect/src/decode.rs:476-496 | However cameras join, decode and are dropped mid-probe, a claim flag is set exactly while one camera's probe is running an open of that backend |
| `HwProbe.FleetNeverReopens` | plugins/cairn-detect/src/decode.rs:533-545 | Once a backend is latched no packet of any camera opens it again |
| `HwProbe.OpensAvoidLatched` | plugins/cairn-detect/src/decode.rs:836-850 | No step opens a latched backend or clears a latch |
| `ClaimProtocol.StepKeepsClaims` | plugins/cairn-detect/src/decode.rs:476-496 | Each atomic operation keeps: a claim flag is set if and only if exactly one caller holds it |
| `ClaimProtocol.ExclusiveClaims` | plugins/cairn-detect/src/decode.rs:476-496 | So does every interleaved run, and latches are never cleared |
| `ClaimProtocol.ClaimsHeldFromStart` | plugins/cairn-detect/src/decode.rs:476-496 | From process start no two callers ever hold one backend and no exit leaks a claim |
| `ClaimProtocol.SpawnsAfterLatch` | plugins/cairn-detect/src/decode.rs:840-861 | A decreasing count of callers between latch read and compare-exchange bounds the spawns after the latch |
| `ClaimProtocol.SpawnBoundAtLatch` | plugins/cairn-detect/src/decode.rs:840-861 | Spawns after the latching operation are at most the callers then between the two reads |
| `ClaimProtocol.SpawnBoundAttained` | plugins/cairn-detect/src/decode.rs:840-861 | The bound is tight: each such caller can still spawn |
| `ClaimProtocol.LatchIsFinalIff` | plugins/cairn-detect/src/decode.rs:533-545 | A latched backend is never spawned again if and only if no caller is past its latch read without having spawned |
| `ClaimProtocol.AtomicCallsNeverRespawn` | plugins/cairn-detect/src/decode.rs:801-931 | When each call runs alone no latched backend is spawned again |
| `DecoderTrace.DecoderTraceShape` | plugins/cairn-detect/src/decode.rs:636-793 | Every packet trace is software, then possibly hardware forever from a unit holding an IDR slice, or refusal forever and only if the backend was required |
| `DecoderTrace.HandoverNeedsIdr` | plugins/cairn-detect/src/decode.rs:919-928 | A handover from software to hardware happens only at a packet containing an IDR slice |
| `DecoderTrace.PacketKeepsDecision` | plugins/cairn-detect/src/decode.rs:943-956 | Once the probe is over no packet changes the decoder |
| `DecoderTrace.GatheringEndsAt900` | plugins/cairn-detect/src/decode.rs:811-819 | With the parameter sets incomplete the probe waits through 899 non-empty units and ends at the 900th, in refusal if required |
| `DecoderTrace.OpensCarryLatestPair` | plugins/cairn-detect/src/decode.rs:803-823 | Every open got the newest SPS and PPS seen when the pair completed, which took at most 900 units |
| `DecoderTrace.OpenedPairScansBack` | plugins/cairn-detect/src/decode.rs:572-594 | Scanning the extradata of an open gives back that pair |
| `DecoderTrace.CompletedAtIsFirst` | plugins/cairn-detect/src/decode.rs:804-823 | The pair completes at the first unit by which both sets were seen |
| `ProbeStory.PacketStory` | plugins/cairn-detect/src/decode.rs:828-930 | A packet past gathering, told from the flags found and the host's answers: every backend passed over was found latched, or was opened and failed, died or was silent for three seconds; the opens are in list order; exactly the silent backends are latched; and the probe stops because the list is exhausted, an open could not start, a claim is taken, an answer is awaited or an open succeeded |
| `ProbeStory.SettlesOnlyWithNothingLeft` | plugins/cairn-detect/src/decode.rs:828-930 | Over whole runs a decoder that had its pair in time settles only once every backend of the list is done with so, or one whose turn came could not be started |
| `ProbeStory.HandsOverToSuccess` | plugins/cairn-detect/src/decode.rs:872-877 | Over whole runs hardware takes over only as the backend whose open succeeded, every backend before it done with |
| `ProbeStory.OpensIncrease` | plugins/cairn-detect/src/decode.rs:836-917 | Over whole runs one decoder's opens are in the order of the list, none twice |
| `ProbeStory.RunIsJustified` | plugins/cairn-detect/src/decode.rs:801-931 | After every packet the state is the one its past accounts for: waiting for a turn, for an answer since its open started, or for a keyframe |
| `EagerOpen.WaitForClaim` | plugins/cairn-detect/src/decode.rs:531-544 | The wait ends holding the claim, or refused as latched or busy without it, decided by the first pass that ends it, after exactly the operations of the passes up to that one |
| `EagerOpen.OpenHwBounded` | plugins/cairn-detect/src/decode.rs:525-565 | Whatever the passes find and the open answers, the operations are those of the wait, then, with the claim, the open's own, and they end with the claim released; the longest time the call takes is that of the last pass plus, once an open is started, the receive timeout |
| `EagerOpen.OutcomeIs` | plugins/cairn-detect/src/decode.rs:533-564 | Each answer comes of exactly its own cause, only silence latches the backend, an open is started at most once, and the claim is released last |
| `EagerOpen.EarlierPassesWaited` | plugins/cairn-detect/src/decode.rs:533-544 | Every pass before the last found the backend unlatched and taken, within the budget |
| `EagerOpen.WaitIsBounded` | plugins/cairn-detect/src/decode.rs:519-550 | The call keeps within three deadlines and the time between two passes |
| `EagerOpen.WaitWithinBudgetIff` | plugins/cairn-detect/src/decode.rs:519-550 | A call that has the claim and starts its open keeps within two deadlines if and only if the pass that had the claim was within the first, and every other call if and only if its last pass was within two |
| `EagerOpen.BusyWithinBudgetIff` | plugins/cairn-detect/src/decode.rs:537-543 | A call refused as busy keeps within two deadlines if and only if its last pass was exactly at them |
| `EagerOpen.WaitCanPassBudget` | plugins/cairn-detect/src/decode.rs:519-550 | A late claim, a claim never released and a late latch each lead to a wait beyond the documented budget |
| `ProbeSteps.MoveIsProtocolStep` | plugins/cairn-detect/src/decode.rs:531-565 | Each step of a camera in the middle of a packet or of a blocking open is one operation its phase allows, seeing what is there, or touches nothing shared |
| `ProbeSteps.PacketAlone` | plugins/cairn-detect/src/decode.rs:801-930 | For every host some uninterrupted steps of a camera come to exactly the decoder's function of the packet: state, flags and operations |
| `ProbeSteps.EveryPacketIsSent` | plugins/cairn-detect/src/decode.rs:801-930 | Conversely, whatever each of a camera's steps is told, an uninterrupted packet that comes to rest came to the decoder's function of it for some host |
| `ProbeSteps.EagerIsItsSteps` | plugins/cairn-detect/src/decode.rs:525-565 | For every list of passes and every answer some steps of a blocking open come to the outcome and operations declared of them |
| `ProbeSteps.EveryEagerRunEnds` | plugins/cairn-detect/src/decode.rs:525-565 | Conversely, whatever others do to the flags between its steps, a blocking open that is done came to the outcome of some passes and answer, with exactly their operations |
| `ProbeSteps.WorldRefines` | plugins/cairn-detect/src/decode.rs:461-498 | Every interleaving of the steps of any number of cameras and blocking opens, arrivals and mid-probe drops included, is a run of the claim protocol |
| `ProbeSteps.WorldClaims` | plugins/cairn-detect/src/decode.rs:466-475 | In every such interleaving a backend's claim is set exactly while one caller holds it |
| `ProbeSteps.WorldSpawnBound` | plugins/cairn-detect/src/decode.rs:466-475 | From the step that latches a backend on, it is opened at most once for each caller then between its latch read and its compare-exchange |
| `ProbeSteps.WorldLatchIsFinalIff` | plugins/cairn-detect/src/decode.rs:458-463 | In every reachable state a latched backend is never opened again, by present callers or later ones, if and only if no caller is past its latch read with its open still to start |
| `ProbeSteps.LatchedIsOpenedAgain` | plugins/cairn-detect/src/decode.rs:458-463 | Two blocking opens, interleaved, open a backend again after it is latched |
| `AnnexB.AnnexbNals` | plugins/cairn-detect/src/decode.rs:597-625 | The index scan returns exactly the units of the one scan of the bytes |
| `AnnexB.SpansIsScan` | plugins/cairn-detect/src/decode.rs:597-625 | The ranges found are a scan: one per start code, none missed, each trimmed of trailing zeros |
| `AnnexB.ScanUnique` | plugins/cairn-detect/src/decode.rs:597-625 | The declarative scan has one solution, and the program finds it |
| `AnnexB.ScanOrdered` | plugins/cairn-detect/src/decode.rs:597-625 | Units are in order, disjoint and a start code apart |
| `AnnexB.NalsAreClean` | plugins/cairn-detect/src/decode.rs:597-625 | For arbitrary bytes no unit contains a start code or ends in zero |
| `AnnexB.PrintScanRoundTrip` | plugins/cairn-detect/src/decode.rs:587-625 | Printing with any mix of 3- and 4-byte start codes and scanning returns the payloads if and only if each has no start code and does not end in zero |
| `AnnexB.ParameterSets` | plugins/cairn-detect/src/decode.rs:572-583 | The last SPS and the last PPS of the unit, by type |
| `AnnexB.LastOfTypeIs` | plugins/cairn-detect/src/decode.rs:575-581 | It is the last unit whose header byte's low five bits are that type, and none only if no unit's are |
| `AnnexB.TypesOfUnits` | plugins/cairn-detect/src/decode.rs:576-581 | A sequence parameter set is type 7, a picture parameter set type 8, and a keyframe a unit of type 5 |
| `AnnexB.ExtradataIsPrinted` | plugins/cairn-detect/src/decode.rs:587-594 | The extradata is the sequence and then the picture parameter set, each behind a four-byte start code |
| `AnnexB.ExtradataRoundTrip` | plugins/cairn-detect/src/decode.rs:587-594 | Parameter sets gathered from any access units are recovered byte for byte from the extradata made of them |
| `Calendar.CivilFromDaysInverse` | plugins/cairn-detect/src/emit.rs:615-632 | For every integer day the date is valid and its independent day count is that day |
| `Calendar.DaysFromCivilInverse` | plugins/cairn-detect/src/emit.rs:615-632 | Every valid date is the date of its own day count |
| `Calendar.CivilFromDaysSteps` | plugins/cairn-detect/src/emit.rs:615-632 | The next day is the calendar successor |
| `Calendar.NextDateIsNextDay` | plugins/cairn-detect/src/emit.rs:615-632 | The calendar successor is valid and counts one more |
| `Calendar.DaysFromCivilInjective` | plugins/cairn-detect/src/emit.rs:615-632 | Two valid dates with one day count are one date |
| `Calendar.YearStartClosedForm` | plugins/cairn-detect/src/emit.rs:617-622 | Year lengths summed one by one, in both directions from 1970, are the leap-year closed form |
| `Calendar.YearOfEraIsCycleYear` | plugins/cairn-detect/src/emit.rs:619-622 | The three-correction quotient picks the year of the 400-year cycle exactly |
| `Calendar.MonthIndexInverts` | plugins/cairn-detect/src/emit.rs:623-629 | The linear month formula yields a month and day that exist |
| `Timestamp.Rfc3339RoundTrip` | plugins/cairn-detect/src/emit.rs:597-609 | The printed timestamp parses back to the instant to the millisecond exactly for the years 1970 to 9999; earlier instants read as 1970, later ones are not RFC 3339, section 5.6 |
| `Timestamp.ParsePrint` | plugins/cairn-detect/src/emit.rs:603-608 | Any valid fields print to text that parses to the same instant, exactly for four-digit years |
| `Timestamp.PaddedValue` | plugins/cairn-detect/src/emit.rs:604-607 | Zero-padded decimals have the asked width exactly when the number fits, and denote it |
| `Timestamp.TimestampsAreMonotone` | plugins/cairn-detect/src/emit.rs:597-609 | A later instant never prints an earlier timestamp |
| `Fp32Islands.Fp32Regions` | tools/qdq-export/qparam_gate.py:259-312 | The regions are the connected components of what is looked up, each once, sorted, in order of first node; they are the components under producer-consumer edges if and only if omitted names join nothing, and where every output is named they are those of the unbracketed nodes |
| `Fp32Islands.FusedIsBracketedIff` | tools/qdq-export/qparam_gate.py:273-281 | The fused test is the documented bracket exactly when omitted names are harmless for the node, in particular when it names all its outputs |
| `Fp32Islands.DequantizedMeans` | tools/qdq-export/qparam_gate.py:274-278 | Inputs count as dequantized exactly when some named one has a maker and every one that has is made, last, by DequantizeLinear |
| `Fp32Islands.OmissionUnfuses` | tools/qdq-export/qparam_gate.py:273-281 | A node inside its bracket that the test takes for unfused, because it omits an output and another node omits an input |
| `Fp32Islands.RegionsAreEdgeComponentsIff` | tools/qdq-export/qparam_gate.py:294-312 | Regions of the lookups are components of the producer-consumer edges if and only if every float that omits an input is connected, tensor by tensor, with the last float that omits an output |
| `Fp32Islands.OmissionJoins` | tools/qdq-export/qparam_gate.py:294-301 | Two nodes that share no tensor and are put in one region, through an omitted output and an omitted input |
| `Fp32Islands.Find` | tools/qdq-export/qparam_gate.py:288-292 | Find terminates at the root, and path halving changes no node's root and keeps the forest acyclic |
| `Fp32Islands.HalvingKeeps` | tools/qdq-export/qparam_gate.py:290-290 | Pointing a node at its grandparent keeps the ranks and every root |
| `Fp32Islands.RootUnique` | tools/qdq-export/qparam_gate.py:288-292 | A forest has one root map, so keeping it pins every root |
| `Fp32Islands.LinkKeepsForest` | tools/qdq-export/qparam_gate.py:299-301 | Linking one root under another keeps the forest acyclic |
| `Fp32Islands.LinkRoots` | tools/qdq-export/qparam_gate.py:299-301 | After a link exactly the linked tree's nodes change root |
| `Fp32Islands.RelabelIsComponents` | tools/qdq-export/qparam_gate.py:294-301 | Merging two labels is exactly adding one edge to connectivity |
| `Fp32Islands.Components` | tools/qdq-export/qparam_gate.py:286-301 | After all lookups two nodes share a root if and only if a path of looked-up names connects them |
| `Fp32Islands.GroupsAreComponents` | tools/qdq-export/qparam_gate.py:302-312 | Grouping by root yields each component once |
| `TrackOverlay.Track.SampleAt` | assets/js/hooks/track_overlay.js:289-331 | From any cursor the box is the stateless sampler's, and the cursor ends at the last sample at or before the time |
| `TrackOverlay.Track.SampleScoreAt` | assets/js/hooks/track_overlay.js:337-348 | The score is that of the last sample at or before the time |
| `TrackOverlay.Track.Playback` | assets/js/hooks/track_overlay.js:289-331 | Any sequence of seeks shows what the stateless sampler shows |
| `TrackOverlay.SamplesAreExact` | assets/js/hooks/track_overlay.js:289-331 | At a sample's own time its own box is shown, if neither neighbour has the same time |
| `TrackOverlay.ShownBetween` | assets/js/hooks/track_overlay.js:306-330 | Between two samples less than a second apart the box is on the straight line between theirs; in a longer gap the first is held 300 ms and then nothing is shown |
| `TrackOverlay.ShownAtEnds` | assets/js/hooks/track_overlay.js:289-293 | Nothing is shown outside the path, and its last box at its end, or the one before if they share the time |
| `TrackOverlay.ScoreShown` | assets/js/hooks/track_overlay.js:337-348 | The score is that of the newest sample at or before the time, or the last one there is |
| `TrackOverlay.NothingInventedInGaps` | assets/js/hooks/track_overlay.js:280-331 | In a gap only an observed box is shown, held at most 300 ms; otherwise the box lies between two samples less than a second apart |
| `TrackOverlay.Undelta` | assets/js/hooks/track_overlay.js:42-50 | Each decoded value is the sum of the column up to it |
| `TrackOverlay.UndeltaOfDelta` | assets/js/hooks/track_overlay.js:41-50 | Decoding a delta-encoded column gives the column |
| `TrackOverlay.DecodedTimesSorted` | assets/js/hooks/track_overlay.js:163-171 | Files whose time and index steps do not go backward decode to sorted times |
| `Pairing.PairedOneToOne` | tools/qdq-export/htp_report.py:225-244 | The greedy pairing maps an instant exactly when its nearest row is within tolerance and no earlier instant claimed it, and to that row |
| `Pairing.MoveTo` | tools/qdq-export/htp_report.py:239-240 | The index ends at the rightmost nearest row |
| `Pairing.StepTowardNearest` | tools/qdq-export/htp_report.py:239-240 | Short of the nearest row the next is never further, past it always is: the local test finds the global minimum |
| `Pairing.NearestMonotone` | tools/qdq-export/htp_report.py:235-240 | Nearest rows move right with time, so the index never needs to go back |
| `Pairing.PairsAreOrdered` | tools/qdq-export/htp_report.py:226-234 | Matches are within tolerance, one-to-one and in order |
| `Pairing.UnmatchedBecause` | tools/qdq-export/htp_report.py:226-234 | An unmatched instant has no row within tolerance or lost its nearest row to an earlier instant |
| `Pairing.RowsUsed` | tools/qdq-export/htp_report.py:226-234 | The rows used are exactly those nearest to some instant within tolerance |

## Left out

- QdqSurgery.ModelGraph.Convert: subgraphs, operator domains, outputs left unnamed, duplicated nodes and the comparison of nodes by their serialized form are not modelled; hashing, the sidecar file and ONNX's own validation are outside it.
- QdqSurgery.ModelGraph.ExitSurgery: what a refused graph looks like half way is not stated, because the program exits without writing it.
- QdqSurgery.SurgeryPreservesMeaning: values are reals, so the 32-bit rounding that makes the comparison bit-exact is not modelled; infinite and not-a-number scales do not exist here.
- QdqBoth.BothAcceptIff: asks that an entry quantizer have at most its three inputs, the operator's own arity; with more, a deleted quantizer could have been the reader that made exit surgery refuse the graph.
- QdqWalk.Walk: the dictionary of consumers is a search of the node list, and the refusal for finding no quantizer is left out because it is proved unreachable.
- CameraRun.SeedsAreFresh: needs timestamps in range and epochs that do not come back, because without either the bound is false, as CameraRun.StaleAfterSuppression shows; a seed is told by its content, not by an identity of its own.
- Emit.ObjectsLine: a line's serialized length is an arbitrary function of the line; JSON itself is not modelled.
- Pipeline.SampleLine: a model pass that fails ends the process, so only passes that return are modelled; the text of a status line is its fields.
- Gate.DecisionIsPolicy: stated for instants that do not go backward, which is what the clock promises; the step itself saturates as the clock's subtraction does.
- LatestSlot.Handoff.OfferValue: offering to a consumer that is gone, an error in the program, is left out: the consumer outlives every producer here.
- LatestSlot.Handoff.Next: where the select would block the answer is that nothing is ready; which ready slot is served is arbitrary.
- EagerOpen.WaitForClaim: takes the passes of the polling loop as given and requires that one of them ends it; the sleep between passes is a pass's elapsed time.
- EagerOpen.OpenHwBounded: the time between having the claim and starting to wait for the answer is not counted.
- ProbeSteps.MoveIsProtocolStep: the flags are sequentially consistent, although the latch is read and written with relaxed ordering.
- QdqSurgery.SurgeryKeepsTypes: that exit codes are uint8 is a typing rule of the operator itself, which an arbitrary kernel need not keep, so it is asked for.
- HwProbe.DeferredHwDecoder.SendPacket: decoding itself, its errors and frame conversion are not modelled; the outcome is which decoder the packet goes to.
- DecoderTrace.DecoderTraceShape: a fatal codec error, which ends the stream, is not part of the trace.
- Fp32Islands.Fp32Regions: the printed labels of a region are not modelled.
- TrackOverlay.Track.SampleAt: requires the sorted times that the stored files have; undefined columns and drawing are not modelled.
- Pairing.PairedOneToOne: requires both inputs in time order, as its documentation does.
- Gate.NeverGatedWhileLearning: stated of frames that carry a measurement; a sample without a verdict always runs the model.
- Motion.MotionDetector.Observe: the background is real-valued, so single-precision rounding is not modelled.
- Threads as operating system objects, libav, swscale, ONNX Runtime, sockets and subprocesses: foreign calls, their answers are parameters.
- Argument parsing, configuration ranges, log text and the rate limit on repeated log lines: they would add only easy members.
- `log.rs` and `teardown.rs`: queues of the same kind as the slot handoff.
- Tensor packing, letterboxing and quantized lookup tables: their definitions are outside these files.
- Video players, drawing and channels in `assets/js`: user interface.
