# DELILA data acquisition: a verified model

This project models the parts of the DELILA pipeline in which a mistake costs
data or hardware, and proves what they promise. It covers five groups of code.

* **Wire and file formats.** MessagePack itself (`MsgPack`); the v2 block layout
  as a concrete syntax tree with its encoder and its readers (`DelilaSyntax`);
  the two C++ decoders as classes with a moving cursor (`DelilaReader`,
  `DelilaFile`, `ConvertToTree`) and the writer's own choice of formats
  (`DelilaWriter`); the hand-written header fast path
  (`MessageHeader`) and the decoder it is stated against (`MessageForms`); the DIG1 aggregate walk and its builder (`Aggregate`); the
  flat event dump (`Dump`).
* **AMax register codegen.** The register-name grammar of five firmware eras
  (`AmaxNames`), the page layout with its guard and address functions
  (`AmaxLayout`), and its laws on register lists as read (`AmaxRegisters`).
* **Control and its followers.** The command handler with its watch channel
  (`ControlState`), the replay publishers (`Replay`, `ReplayStarts`,
  `ReplayNumbers`, `ReplayStops`, `ReplayProgress`) and the online event builder (`EventBuilder`), each as a machine whose steps interleave
  with those of the command task.
* **Queue accounting.** The lock-free gauge, run by one thread and under every
  interleaving of its atomic accesses (`QueueAccounting`).
* **Algorithms and transactions.** The test sender (`TestSender`), the firmware
  scan (`FwScan`) and spectral-line selection (`FwLines`).

`Bytes` holds byte strings and fixed-width integers, `Arith` two division facts.
Code that moves a cursor, fills buffers or updates fields is a method or a class
proved against a function or a relation; what the code promises is then proved
about that function or relation. `dafny verify dfyconfig.toml` checks everything.

## What the proofs found

These statements, which a reader of the code or its comments might expect, are
false of it; each has a lemma at a failing input and the exact condition.

* `read_delila.C` and `convert_to_tree.C` do not accept every legal MessagePack
  width: `read_uint` rejects the signed formats, `read_int` rejects int 64, and
  32-bit floats are rejected (`DelilaSyntax.LegalWidthsRejected`).
  `ReadsIffSupported` gives the exact class; `ConvertToTree.DecodersAgree` adds the one difference between the two,
  that the converter takes waveforms of 8 elements only.
* A replay publisher takes its pass with `borrow()`, which does not mark the
  version as seen. A Start that arrives while it is being woken can therefore be
  replayed twice: `ReplayStarts.ReplayedTwice`, with `WakesIffUnclean` as the
  condition.
* A pass need not carry the run number of its Start, because the publisher reads
  the number before it reads the generation: `ReplayNumbers.WrongNumber` closes
  run 1 with an EOS of run 9. `PassNumber` gives the condition: that Start was
  the last command to set a number before the first read, or a Configure had set
  the number of a Start that came between the reads.
* When notifications are conflated the event builder can keep the pipeline of
  the previous run (`EventBuilder.StaleRun`), or one numbered for a run that is
  never started (`NeverStartedRun`). `StaleIff` gives the condition over all runs:
  behind the Spawn the component left Running and was started again with no Read
  in between. `RightRun` says what that means for the run number.
* Configure is accepted from Running, Reset is never refused by state, and a
  Start whose hook fails still overwrites the run number
  (`ControlState.RefusedStartRenumbers`; `RejectedChanges`, `AdvertisedAccepted`).
* With `prefer_override = Some(false)` both bases are the broadcast one, so the
  guard compares addresses instead of offsets (`AmaxLayout.EqualOffsetsRejected`;
  `GuardWithoutPerChannel`). Pages without ch0 get the broadcast base and stride 0
  (`UniformWithoutCh0`).
* `parse_aggregate` does not end on a buffer in which it meets a board with a
  zero size field (`Aggregate.ZeroBoardNeverStops`; `StopsIff`).
* `reset_peak` loads and stores in separate steps and can lose a peak for good
  (`QueueAccounting.ResetLosesPeak`). At rest the peak is too low exactly when a
  reset stored an outdated depth while no thread was about to raise the peak, and
  no access that makes up for it followed (`RestingPeak`).
* The header fast path does not read every encoding of a message
  (`MessageHeader.SignedIdRejected`): its own formats are the exact condition
  (`ParseOfMessage`).
* A CSV row that cannot be written makes the firmware scan return before it
  restores the boards (`FwScan.LeftAsFoundIff`, `CsvErrorLeavesTrap`).
* The count in the dump header is the number of events exactly when the complete
  footers do not misstate it in total (`Dump.MisstatedCount`; `DumpThenRead`).

## Model

| member | source | states |
|---|---|---|
| MsgPack.NumExact | macros/read_delila.C:354-448 | An integer in a given format stands at an offset exactly when the decoder returns it with the offset behind it: every int width of the MessagePack "Formats" section, both directions |
| MsgPack.HdrExact | macros/read_delila.C:326-352 | The same for fixarray, array 16 and array 32 headers |
| MsgPack.BinExact | macros/read_delila.C:296-324 | The same for bin 8, bin 16 and bin 32 payloads |
| MsgPack.FloatExact | macros/read_delila.C:450-471 | The same for 32-bit and 64-bit floats, as bits |
| DelilaSyntax.BatchExact | macros/read_delila.C:131-256 | A reader returns batch and end offset exactly when the batch is well-formed, uses only formats the reader supports, stands encoded at the offset and ends there: soundness and completeness on arbitrary bytes |
| DelilaSyntax.EncodingUnique | macros/read_delila.C:131-256 | No bytes are the encoding of two different batches |
| DelilaSyntax.ReadsIffSupported | macros/read_delila.C:131-471 | For every batch, every width and any surrounding bytes: the encoding is read back and the cursor stops exactly at its end if its formats are supported, otherwise the batch is rejected |
| DelilaSyntax.LegalWidthsRejected | macros/read_delila.C:354-471 | A well-formed batch with one 32-bit float, and one with an int 64 sample, that the reader rejects |
| DelilaReader.MsgPackParser.ReadArrayHeader | macros/read_delila.C:326-352 | Cursor method: accepts what the header specification accepts, returns its count, moves to its end, never past the buffer |
| DelilaReader.MsgPackParser.ReadUint | macros/read_delila.C:354-398 | Unsigned reader: which formats it accepts, the value, and the new cursor |
| DelilaReader.MsgPackParser.ReadInt | macros/read_delila.C:400-448 | Signed reader: the same, int 64 being rejected |
| DelilaReader.MsgPackParser.ReadFloat64 | macros/read_delila.C:450-471 | The 64 bits of the float and the new cursor, 32-bit floats being rejected |
| DelilaReader.MsgPackParser.ReadBin | macros/read_delila.C:296-324 | The payload of a bin of any size field and the new cursor |
| DelilaReader.MsgPackParser.ReadI16Array | macros/read_delila.C:258-270 | The probe read is the one of the specification, each element cut to 16 bits |
| DelilaReader.MsgPackParser.ReadU8Array | macros/read_delila.C:272-294 | Digital probe as bin or as array, whichever the tag announces |
| DelilaReader.MsgPackParser.ParseWaveform | macros/read_delila.C:213-256 | Waveforms of 8 or 9 elements: six probes and the settings in order |
| DelilaReader.MsgPackParser.ParseEvent | macros/read_delila.C:167-211 | Events of 6 or 7 elements, waveform exactly when there are 7 |
| DelilaReader.MsgPackParser.ParseBatch | macros/read_delila.C:131-165 | Succeeds exactly where a batch can be read, returns its source and events, stops behind it; on arbitrary bytes the cursor only grows and stays in the buffer |
| DelilaReader.EventUnchanged | macros/read_delila.C:167-256 | The C++ casts change no field whose value is of the declared Rust type |
| DelilaReader.CastsCongruent | macros/read_delila.C:131-270 | Every cast gives the value of its type that is congruent to the number read |
| DelilaFile.ReadDelila | macros/read_delila.C:542-632 | The block loop returns the events of the blocks from the header to the first bad block or the footer, cut at `max_events` |
| DelilaFile.AddBlock | macros/read_delila.C:606-625 | One block appends all its events, or up to the limit, or nothing if it does not parse |
| DelilaFile.FramesRead | macros/read_delila.C:577-632 | Any sequence of length-prefixed encoded batches is read back in order |
| DelilaFile.FileRoundTrip | macros/read_delila.C:478-632 | Header, blocks and footer written around any batches give back exactly the events of the batches before the first one that is unsupported or longer than 100 MB |
| DelilaWriter.BatchRead | src/common/mod.rs:470-473 | Every batch of the v2 types, written with the shortest integers and 64-bit floats, uses only formats the reader takes and gives back its events |
| DelilaWriter.WrittenFileRead | macros/read_delila.C:478-632 | A file of such batches, none longer than 100 MB, gives back all its events with every field and sample unchanged |
| ConvertToTree.TreeParser.ReadI16Array | macros/convert_to_tree.C:200-213 | The fixed buffer holds the first min(size, 16384) samples, the cursor passes all of them |
| ConvertToTree.TreeParser.ReadU8Array | macros/convert_to_tree.C:215-238 | The same for digital probes, as bin or array |
| ConvertToTree.TreeParser.ParseWaveform | macros/convert_to_tree.C:159-198 | The waveform branches show the six probes cut to the buffers |
| ConvertToTree.TreeParser.ParseEvent | macros/convert_to_tree.C:95-157 | The branches show the event that the specification reads, at the same cursor |
| ConvertToTree.ConvertBlock | macros/convert_to_tree.C:542-590 | The rows filled for a block, up to the first event that does not parse |
| ConvertToTree.DecodersAgree | macros/convert_to_tree.C:69-411 | On every byte string the converter accepts exactly what `read_delila` accepts with 8-element waveforms, with the same fields and cursor |
| ConvertToTree.RowsAgree | macros/convert_to_tree.C:69-411 | On every accepted block the rows are the events of the other decoder, every probe cut to its first min(size, 16384) elements |
| MessageHeader.ParseExact | src/common/mod.rs:567-754 | On every byte string the byte-by-byte fast path is the MessagePack decoding of the leading fields, in the formats it takes |
| MessageHeader.ParseOfMessage | src/common/mod.rs:567-754 | On every byte string that a complete decoder (exact field counts, any map, string, array and integer format) takes for a message, the fast path gives that message's header if the formats are its own and nothing otherwise |
| MessageForms.DecodesExactly | src/common/mod.rs:484-541 | The complete decoder of the row above: on every byte string it gives a message exactly when the bytes are that message, with each header, name and number in any format that holds it |
| MessageHeader.SignedIdRejected | src/common/mod.rs:567-754 | A complete message with its source id in the int 8 format whose header the fast path does not find |
| MessageHeader.RoundTrip | src/common/mod.rs:567-754 | For every message and any bytes behind it the header has its variant, source id and sequence number |
| MessageHeader.AppendStable | src/common/mod.rs:567-754 | Bytes appended to a parsed buffer do not change the header |
| ControlState.HandleCommand | src/common/state.rs:156-456 | The handler's assignments, hook calls and sends amount to the transition function, state and response |
| ControlState.ConfigInForce | src/common/state.rs:156-260 | In every run, outside Idle: comment and experiment name are those of the last accepted Configure, and the run number that of the last Start behind it that passed the gate, or the one configured |
| ControlState.Answers | src/common/state.rs:156-456 | Every answer, refusals included, tells the state held then; an accepted Configure, Arm, Start, Stop or Reset has led to its target and tells the run number held then; nothing else changes the state |
| ControlState.HookDecides | src/common/state.rs:156-456 | Which commands a missing or refusing extension fails, relative to an accepting one |
| ControlState.VersionCounts | src/common/state.rs:156-260 | In every run the version counts exactly the states entered while a receiver was alive |
| ControlState.Transitions | src/common/command.rs:52-71 | The transition table: successor, Idle, and Error from anywhere but Idle; none to the same state |
| ControlState.AlwaysInv | src/common/state.rs:156-456 | In every run: Idle exactly when there is no run config, Error never, the watched value is the state while a receiver lives |
| ControlState.RunningHistory | src/common/state.rs:156-260 | Running is reached only through an accepted Configure, then Arm, then Start since the last Idle |
| ControlState.LeavesRunning | src/common/command.rs:52-71 | Running is left exactly by an accepted Stop, Reset or Configure |
| ControlState.RejectedChanges | src/common/state.rs:223-260 | A rejected command changes nothing, except exactly a Start refused by its hook in Armed with another run number, which overwrites that number |
| ControlState.RefusedStartRenumbers | src/common/state.rs:223-232 | Behind an accepted Configure and Arm a refused Start leaves its number behind |
| ControlState.AdvertisedAccepted | src/common/command.rs:73-85 | Which commands are accepted beyond those advertised for the state, exactly |
| Replay.Reachable | src/bin/delila_source_replay.rs:344-463 | Every interleaving of commands and publisher keeps the machine invariant |
| Replay.PassShape | src/bin/delila_source_replay.rs:344-463 | In every interleaving what was published begins with the finished passes in order; each publishes the matching batches in file order, read in a circle under loop mode, numbered 0, 1, 2, ..., and then exactly its end-of-stream message with the run number of the pass |
| Replay.Published | src/bin/delila_source_replay.rs:344-463 | The published messages are those of the finished passes, then of the pass in progress, and at most the EOS of a shutdown |
| ReplayStops.NothingWhenOver | src/bin/delila_source_replay.rs:382-394 | In every run, while the watched state is not Running or another Start was accepted, no batch is sent but for one whose tests were already passed |
| ReplayStops.OnlyEosWhenOver | src/bin/delila_source_replay.rs:382-394 | From the head of the block loop on, only end-of-stream messages are published while that lasts |
| ReplayStops.StopClosesPass | src/bin/delila_source_replay.rs:378-462 | Once the state is not Running the publisher is never blocked inside the pass and closes it within seven of its steps |
| ReplayStops.QuietPassIsFull | src/bin/delila_source_replay.rs:378-462 | Every finished pass that was not cut by a state other than Running, another Start or a failed send is not in loop mode and consists of every matching batch once, in order, and its EOS |
| ReplayProgress.PassCompletes | src/bin/delila_source_replay.rs:378-443 | Undisturbed, a pass publishes every matching batch and then its EOS in three steps a block and five more, and waits |
| ReplayProgress.LapsGoOn | src/bin/delila_source_replay.rs:424-427 | Undisturbed in loop mode, any number of laps is published, without an EOS |
| ReplayProgress.BlockedIff | src/bin/delila_source_replay.rs:344-463 | In every reachable state: when the publisher and when the commands are blocked, exactly |
| ReplayProgress.WokenOncePerChange | src/bin/delila_source_replay.rs:344-463 | In every run the publisher is woken at most once for each state entered |
| ReplayProgress.StopsWhenAsked | src/bin/delila_source_replay.rs:445-469 | A waiting publisher that is shut down stops, with one last EOS exactly when the state is still Running |
| Replay.EosShape | src/bin/delila_merger_replay.rs:456-471 | The merger closes a pass with one EOS per source met, ascending, or one for source 0 if it met none |
| Replay.ExpectedCircular | src/bin/delila_source_replay.rs:380-430 | The j-th batch of a pass is the j-th matching batch of the inputs counted round and round |
| Replay.IdsSorted | src/bin/delila_merger_replay.rs:331-455 | The ids collected in a pass are those of its batches, each once, ascending |
| ReplayStarts.CleanRun | src/bin/delila_source_replay.rs:182-205 | Every clean pass carries the run number of the accepted Start that opened it |
| ReplayStarts.CleanPasses | src/bin/delila_source_replay.rs:182-205 | Passes follow the accepted Starts in order; no later pass belongs to the Start of a clean one |
| ReplayStarts.WakesIffUnclean | src/bin/delila_source_replay.rs:344-463 | A publisher waiting for the end of the run it replayed is woken by an old notification exactly when its pass is not clean |
| ReplayStarts.UncleanPassRepeats | src/bin/delila_source_replay.rs:344-463 | After an unclean pass the same Start is replayed again |
| ReplayStarts.ReplayedTwice | src/bin/delila_source_replay.rs:344-463 | A concrete run in which one Start publishes its batch twice |
| ReplayNumbers.PassNumber | src/bin/delila_source_replay.rs:344-463 | For every finished pass of every run: it carries the number of its own Start if that Start was the last to set the number before the publisher read it; if no number is reused, otherwise only when a Configure had set the number of a Start that came between the two reads |
| ReplayNumbers.WrongNumber | src/bin/delila_source_replay.rs:344-463 | A concrete run whose pass is opened by the Start of run 1 and closed with an EOS of run 9 |
| EventBuilder.Loop.OnState | src/bin/online_event_builder.rs:382-450 | The state branch updates thread, handle and last state as the transition functions say |
| EventBuilder.Loop.TearDown | src/bin/online_event_builder.rs:471-491 | Tear-down takes both options and counts the join |
| EventBuilder.AtLoopHead | src/bin/online_event_builder.rs:382-491 | For every interleaving with conflated notifications: at most one thread, a handle exactly when there is a thread, a thread only if the last observed state was Running, spawned = joined + live, none live after shutdown |
| EventBuilder.ThreadEndsIff | src/bin/online_event_builder.rs:382-491 | In every run a pipeline ends exactly when a tick finds it finished, when the loop leaves behind a read of a state other than Running, or at the shutdown |
| EventBuilder.ThreadBeginsIff | src/bin/online_event_builder.rs:402-434 | In every run a pipeline begins exactly at a successful Spawn behind a read of Running |
| EventBuilder.HealthySurvives | src/bin/online_event_builder.rs:382-460 | A pipeline that never finishes goes on, with its number, while every state read is Running and nobody shuts the loop down |
| EventBuilder.BranchesPossible | src/bin/online_event_builder.rs:388-460 | In every run: which branches of the loop can be taken at its head, a shutdown before everything else, and when the state branch is held up by a command |
| EventBuilder.Loop.OnTick | src/bin/online_event_builder.rs:446-460 | The liveness tick as the transition function; `ThreadEndsIff` says what that is |
| EventBuilder.SpawnIndex | src/bin/online_event_builder.rs:406-434 | Every live pipeline goes back to one Spawn since which one was live |
| EventBuilder.StaleIff | src/bin/online_event_builder.rs:382-450 | For every run: a pipeline live at the loop head belongs to an earlier run exactly when, behind its Spawn, the component was started again after leaving Running with no Read in between |
| EventBuilder.StartMissed | src/bin/online_event_builder.rs:382-450 | Every Start behind the Spawn of a pipeline that survives is one the loop has missed: the component left Running before it with no Read in between |
| EventBuilder.RightRun | src/bin/online_event_builder.rs:406-414 | With nothing pending the pipeline carries the number in force at its Spawn; that is the current one if no restart was missed, and only then if run numbers are not reused |
| EventBuilder.StaleRun | src/bin/online_event_builder.rs:382-450 | A concrete run in which the pipeline of run 1 goes on in run 2 |
| EventBuilder.NeverStartedRun | src/bin/online_event_builder.rs:406-414 | A concrete run in which the pipeline in run 2 carries the number of a run that is never started |
| AmaxNames.SplitUnderscoreBody | src/bin/amax_codegen.rs:118-130 | The token loop computes the recursive split |
| AmaxNames.SplitConsumes | src/bin/amax_codegen.rs:118-130 | The split consumes a maximal run of digits-underscore tokens, the channel is the last of them, and it does nothing to its remainder |
| AmaxNames.ParseUndoesPrint | src/bin/amax_codegen.rs:144-200 | For all naming forms, groups, channels and admissible names `fw_key` gives the name and `channel_index` the channel, or none for broadcast |
| AmaxNames.NameConditionExact | src/bin/amax_codegen.rs:144-163 | For the underscore forms the name comes back exactly when it has no slash and does not start with a token |
| AmaxLayout.DeriveLayout | src/bin/amax_codegen.rs:300-363 | The maps and folds give the layout that the declarative relation fixes |
| AmaxLayout.LayoutUnique | src/bin/amax_codegen.rs:300-363 | The relation admits one layout per list and override |
| AmaxLayout.LayoutOfSet | src/bin/amax_codegen.rs:300-363 | Order and repetitions of the registers do not matter |
| AmaxRegisters.BoardRegistersIgnored | src/bin/amax_codegen.rs:245-363 | On every register list: layout, kept registers and guard are those of the list without the registers whose path, or else name, has no page prefix |
| AmaxRegisters.PageOfForm | src/bin/amax_codegen.rs:144-200 | A register printed in any era's form, in its path or only in its name, is on the page of that form under its own key |
| AmaxRegisters.PathDecides | src/bin/amax_codegen.rs:145 | A path decides whatever the name field says |
| AmaxRegisters.BoardKey | src/bin/amax_codegen.rs:144-165 | A register outside the page family keeps its raw name as key |
| AmaxRegisters.StrideOfPages | src/bin/amax_codegen.rs:335-347 | The stride of any pages: the even part of the distance to the smallest other page, else the whole distance, 0 if it stands below ch0 |
| AmaxRegisters.SpanOfPages | src/bin/amax_codegen.rs:348-354 | Every page index is below `channel_pages`, which is one more than one of them; 0 without pages or when it wraps |
| AmaxLayout.UniformRecovered | src/bin/amax_codegen.rs:300-363 | Uniform pages, however sparse, and an optional broadcast page give back base, stride, broadcast base and span exactly |
| AmaxLayout.UniformWithoutCh0 | src/bin/amax_codegen.rs:324-363 | Uniform pages without ch0: both bases are the broadcast one or 0 and the stride is 0; when these are the true ones; the span is still recovered |
| AmaxLayout.WarnsIffSparse | src/bin/amax_codegen.rs:547-563 | The warning is printed exactly when an index below the largest is missing, in 32-bit arithmetic |
| AmaxLayout.CanonicalIsOneGroup | src/bin/amax_codegen.rs:240-264 | The filter keeps exactly one page family: ch0 or broadcast, by preference and presence |
| AmaxLayout.PageBaseIsLowestKept | src/bin/amax_codegen.rs:324-333 | For every list and override `page_base` is the lowest address of exactly the kept registers, 0 if none |
| AmaxLayout.OffsetsExactIff | src/bin/amax_codegen.rs:608 | `saturating_sub` is exact on all emitted registers exactly when the base in force does not exceed the derived one |
| AmaxLayout.AssertBroadcastLayoutMatches | src/bin/amax_codegen.rs:371-407 | Ok exactly when no broadcast register stands at another offset than its first ch0 namesake; otherwise the first such key is reported |
| AmaxLayout.GuardWithoutPerChannel | src/bin/amax_codegen.rs:324-333 | With the override off the guard passes exactly when shared names have equal addresses |
| AmaxRegisters.GuardExact | src/bin/amax_codegen.rs:371-407 | For a kept ch0 register the guard objects to its broadcast namesake exactly when the emitted broadcast address would miss it |
| AmaxRegisters.FirstCh0IsFirst | src/bin/amax_codegen.rs:376-387 | Of several ch0 registers of one name the first in the list counts |
| AmaxLayout.EqualOffsetsRejected | src/bin/amax_codegen.rs:324-333 | Two pages whose shared register has equal offsets, accepted by default and rejected with the override off |
| AmaxLayout.EmittedAddresses | src/bin/amax_codegen.rs:934-949 | After Ok the emitted byte addresses of an offset are 4 times the ch0 register's and 4 times the address of its broadcast namesake, in 32 bits |
| AmaxLayout.EmittedBroadcastAddresses | src/bin/amax_codegen.rs:934-949 | When the broadcast page is canonical, its own offsets address its own registers |
| AmaxLayout.EmittedOnEveryPage | src/bin/amax_codegen.rs:934-949 | On uniform pages one offset addresses the corresponding register of every page present |
| Aggregate.ParseAggregate | src/bin/fine_ts_verify.rs:258-348 | The outer loop computes the results of the boards walked, on exactly the buffers where it ends |
| Aggregate.ParseChannels | src/bin/fine_ts_verify.rs:276-344 | The channel-pair loop, its mask test and its three ways out |
| Aggregate.ParseEvents | src/bin/fine_ts_verify.rs:309-343 | The event loop: one result per extras word, stopping where the source breaks |
| Aggregate.StopsIff | src/bin/fine_ts_verify.rs:263-346 | The walk ends exactly when it meets no board with a zero size field, with `size - offset` as its measure |
| Aggregate.ZeroBoardNeverStops | src/bin/fine_ts_verify.rs:263-346 | Sixteen bytes on which the walk does not end |
| Aggregate.ParseUndoesBuild | src/bin/fine_ts_verify.rs:258-348 | On all boards, blocks and events from the builder: one result per extras word, in order, with the packed fields, whatever follows in the buffer |
| Aggregate.ResultsInside | src/bin/fine_ts_verify.rs:258-348 | On every buffer each result is an extras word complete within the first `size` bytes, of an event that starts inside a complete board of the walk |
| Aggregate.FieldsRestored | src/bin/fine_ts_verify.rs:324-337 | Ten bits of fine time, or the two signed halves, come back from the word they were packed in |
| Dump.CountEvents | src/bin/recover.rs:402-420 | The counting pass: when it fails and the total it computes in 64 bits |
| Dump.DumpFiles | src/bin/recover.rs:402-454 | When each pass fails, and the bytes written in each case |
| Dump.ReadDump | macros/read_dump.C:26-88 | The reader returns the rows of the complete records behind a valid magic |
| Dump.CutDumpRead | macros/read_dump.C:64-84 | A dump cut anywhere behind its header reads back as the events whose records are complete |
| Dump.DumpThenRead | src/bin/recover.rs:402-454 | Dump then read is the identity, the length is 16 + 22 n, and the header count is n exactly when the complete footers do not misstate it in total |
| Dump.IncompleteIgnored | src/bin/recover.rs:402-420 | Files with an incomplete footer count, and can be counted, as files without one |
| Dump.OneListOfBlocks | src/bin/recover.rs:422-450 | The events dumped are those of all blocks of all files in one list, up to its first unreadable block |
| Dump.NotCountable | src/bin/recover.rs:402-420 | The counting pass fails exactly on a file that does not open, or with an unreadable block and no complete footer |
| Dump.MisstatedCount | src/bin/recover.rs:402-420 | A file without events whose complete footer puts any other count into the header |
| Dump.BranchOfField | macros/read_dump.C:64-84 | Which branch of the tree holds each field of the i-th dumped event |
| QueueAccounting.Gauge.OnEnqueue | src/common/queue_accounting.rs:44-49 | The counters after an uninterrupted enqueue |
| QueueAccounting.Gauge.OnDequeue | src/common/queue_accounting.rs:54-57 | The counters after an uninterrupted dequeue |
| QueueAccounting.Gauge.RebasePeak | src/common/queue_accounting.rs:84-86 | The peak re-bases at the current depth |
| QueueAccounting.PeakIsWindowMax | src/common/queue_accounting.rs:74-86 | Run by one thread the peak is exactly the largest depth since the last reset |
| QueueAccounting.DepthBelowTrue | src/common/queue_accounting.rs:44-86 | Under every interleaving a depth that a thread has computed, in bytes or in items, is the difference of the two loads of that very call, and at most the true depth at both of them and at every instant between |
| QueueAccounting.PeakBelowTrueMax | src/common/queue_accounting.rs:44-86 | The peak was computed by one call, stands since that call's access, and the true depth was at least that from the call's first load to its second |
| QueueAccounting.Conservation | src/common/queue_accounting.rs:44-57 | Enqueued minus dequeued is what the channel and the threads hold, never below the bytes in the channel, failed sends included |
| QueueAccounting.PeakCovers | src/common/queue_accounting.rs:44-86 | With any number of resets: the peak has reached the present difference, or a thread in `on_enqueue` is about to raise it, exactly unless a reset lost it and no restoring access followed |
| QueueAccounting.RestingPeak | src/common/queue_accounting.rs:44-86 | At rest the difference is the bytes in the channel, and the peak is below it exactly when a reset lost it |
| QueueAccounting.ResetLosesPeak | src/common/queue_accounting.rs:84-86 | A concrete run in which a reset overwrites a concurrent peak and all threads come to rest with the peak below the depth |
| QueueAccounting.UninterruptedEnqueue | src/common/queue_accounting.rs:44-49 | An enqueue that no thread interrupts takes the machine where the sequential operation goes |
| QueueAccounting.UninterruptedDequeue | src/common/queue_accounting.rs:54-57 | The same for a dequeue |
| QueueAccounting.UninterruptedReset | src/common/queue_accounting.rs:84-86 | The same for a reset of the peak |
| QueueAccounting.UninterruptedReads | src/common/queue_accounting.rs:61-72 | The depth reads, in bytes and in items, report what the sequential ones return |
| TestSender.Shuffle | src/bin/eb_test_sender.rs:108-121 | The shuffle keeps the chunk's hits, for every source of indices |
| TestSender.Chunk | src/bin/eb_test_sender.rs:105-122 | The loop yields the shuffled chunks of the time cut |
| TestSender.ChunkingUnique | src/bin/eb_test_sender.rs:105-122 | The chunk bounds determine the cut |
| TestSender.DisorderBound | src/bin/eb_test_sender.rs:98-122 | For every shuffle an earlier-sent hit exceeds a later one by at most max(0, chunk size) |
| TestSender.SendAll | src/bin/eb_test_sender.rs:136-212 | All batches but the last have max(1, batch_size) events, numbers run 0..n-1, nothing is lost, the EOS comes last if asked for |
| TestSender.SentEventIs | src/bin/eb_test_sender.rs:143-160 | Event i of batch b is hit b * max(1, batch_size) + i in the order of sending, field by field |
| TestSender.SortStable | src/bin/eb_test_sender.rs:81-86 | Hits of one time keep their order in the sort |
| TestSender.Send | src/bin/eb_test_sender.rs:68-212 | The whole program: the sent order is a permutation of the input with bounded disorder; no hits is the error |
| FwScan.SetBoardTrap | src/offline/fw_scan.rs:88-99 | The loop over the overrides computes the changed configuration |
| FwScan.TrapOnEveryChannel | src/offline/fw_scan.rs:88-99 | Every channel then runs with the trapezoid and nothing else changes |
| FwScan.MeasurePoint | src/bin/pha_fw_scan.rs:275-339 | The exact log of one point for every failure, clock and cancellation; success only if every status read was Running, the full time passed, and the stop led back to Configured |
| FwScan.Watch | src/bin/pha_fw_scan.rs:299-320 | The watch loop only reads the status; every answer but the last is Running; true only when the last is, after the full time |
| FwScan.Operator.WaitFor | src/bin/pha_fw_scan.rs:189-207 | Polling succeeds at the first answer with the wanted state; it fails when an answer does not come or another one comes behind the timeout; at most one poll a second |
| FwScan.Restore | src/bin/pha_fw_scan.rs:486-506 | Every original is applied in order whatever fails, and the result says whether all succeeded |
| FwScan.RunScan | src/bin/pha_fw_scan.rs:625-663 | The log of the whole scan: points, recovery, restore, or the early return of a failed CSV row |
| FwScan.StoppedBeforeRestore | src/bin/pha_fw_scan.rs:645-663 | In the log of every scan that gets to the restore: a status is read behind the points; exactly if it is Running or Armed a stop is requested next and Configured polled for; only then are the originals applied, each once, in order |
| FwScan.RunsUnderPoint | src/bin/pha_fw_scan.rs:275-298 | In the log of every scan the k-th run started has the number firstRun + k, and immediately before it every board has accepted the settings of the k-th point, on every channel |
| FwScan.LeftAsFoundIff | src/bin/pha_fw_scan.rs:629-663 | The last configuration sent to every board is its original exactly unless a CSV row failed after a point that changes a board |
| FwScan.CsvErrorLeavesTrap | src/bin/pha_fw_scan.rs:637 | The exception occurs: for every board and trapezoid a valid scan is exhibited that ends with the board programmed to the trapezoid |
| FwScan.ScanStopsRuns | src/bin/pha_fw_scan.rs:275-339 | Every successful start is followed by a stop request, and no run starts before the previous one was stopped and Configured was seen |
| FwScan.PointStops | src/bin/pha_fw_scan.rs:293-323 | The stop request comes before the point is done |
| FwLines.FwLines | src/bin/pha_trap_tune.rs:748-768 | Histogram, stable sort and greedy loop yield a selection: at most n codes by rank, each more than 2 % from every earlier one, and every code left out is within 2 % of one that ranks before it or ranks after all n |
| FwLines.FarIsTwoPercent | src/bin/pha_trap_tune.rs:758-764 | The test of the loop is a distance of more than 0.02 of the line, for all codes |
| FwLines.CodesOf | src/bin/pha_trap_tune.rs:741-753 | The codes considered are the energies from 64 to 32766 |
| FwLines.SelectionUnique | src/bin/pha_trap_tune.rs:748-768 | These conditions leave only one selection |
| FwLines.FirstIsMode | src/bin/pha_trap_tune.rs:748-768 | The first pick is the tallest code, the lowest of the tallest |
| FwLines.FewerLines | src/bin/pha_trap_tune.rs:772-776 | Asking for fewer lines gives the first of them |
| FwLines.AutoFwWindow | src/bin/pha_trap_tune.rs:772-776 | The window is centred on the mode with half-width max(1 %, 8), and there is none exactly when no code qualifies |

## Left out

- Sockets, tokio tasks, signals, HTTP and file handles: they are nondeterministic steps, arbitrary replies or byte sequences.
- `rmp_serde`, `serde`, ROOT and the CAEN library: the MessagePack encoding is a function here; ROOT trees are the rows filled.
- Floating point: timestamps and other floats in the formats are their bits; the test sender orders reals, without NaN; the 2 % test is `50 * |e - l| > l`, so a code whose rounded product falls on the other side is not distinguished; the unsigned `TimeStamp` that `read_dump.C` casts from the float is not modelled.
- 64-bit wrap-around of the queue counters, 32-bit wrap-around of histogram counts and run numbers, and reordering of relaxed atomics.
- Allocation failure, such as a `reserve` for a huge announced array.
- Printing: log lines, the channel header of `parse_aggregate`, the generated source text apart from the offsets and the two address functions.
- MessageHeader.ParseOfMessage: the returned position stands for the `&mut usize` cursor of `parse_u32` and `parse_u64`; the events of a data batch are kept as encoded bytes. Messages are maps from a variant's name to an array of its fields, as the compact serializer writes them; fields by name and variants by number are not considered.
- DelilaReader.MsgPackParser.ParseWaveform: with 8 elements the source leaves `ns_per_sample` as it was; the value is `None` here.
- ConvertToTree.ConvertBlock: the loop over the blocks of a file and its event limit are those of `DelilaFile` and are not repeated.
- DelilaFile.ReadDelila: reading the footer and the histograms that follow.
- DelilaWriter.BatchRead: the v2 record layout, in which the two macros read. Events of the present `EventData` have eight elements (`src/common/mod.rs:296-325`), with `user_info`; the macros reject them and a writer for them is not modelled.
- Replay.Reachable: the flag `pending_eos`, which the programs write and never read.
- Replay.PassShape: the publisher is a machine over its atomic accesses instead of a loop in a method, because it interleaves with the command task. An end-of-stream message is an attempt: its send result is ignored as in the source.
- EventBuilder.AtLoopHead: the pipeline behind the thread, its drain and its error reports.
- ControlState.HandleCommand: the answers to Detect, register reads and emulator settings beyond success and state, and a state that a component reports in place of its own.
- AmaxLayout.EmittedAddresses: addresses wrap as in a release build; a debug build stops instead.
- TestSender.Send: batch timestamps and the pauses between batches; the library sort is a stable insertion function.
- FwScan.RunScan: choosing the points from the command line, fetching the originals, the checks before the first apply and the summary after the restore.
- FwLines.FwLines: the library sort is a stable insertion function.
- Dump.DumpFiles: what becomes of buffered bytes when the second pass fails; the output is what was handed to the writer.
- Dump.ReadDump: a file shorter than the magic compares uninitialised bytes in the source and is rejected here.
- Finite tables and thin code: channel parameter tables, schema field lists, backlog and disk levels, the command line.
