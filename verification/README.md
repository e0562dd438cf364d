# Verified model of an LLM gateway

A Dafny model of the parts of the gateway that carry protocol state, and proofs about every run of
them. Reads, client writes, clocks, policy answers, RPC acknowledgements and Provider responses are
oracles (functions of the call number, scripts of ticks, or schedules), so that a statement about
all oracles is one about all runs.

- **Streaming pipe** (`Sse` and the `Stream...` modules): an SSE byte stream is cut into events across
  arbitrary read boundaries, gated through a content policy, converted and written to a client that
  takes what it likes. Only LF LF and CRLF CRLF end an event, a subset of section 9.2.5 of the WHATWG
  HTML Standard.
- **Lease lifecycle** (`Dispatch`, `Failover`, `Forwarder`, `Lease`, `Settlement`,
  `SettlementTheorems`, `Gateway`): dispatch, evidence, Provider call, abort, retry and usage, with a
  history per lease. `Settlement` says which steps the answers of the outside world call for; the
  methods of `Gateway` take exactly those. The k-th grant of a request carries the k-th lease: each
  successful dispatch is taken to hand out a fresh token.
- **Usage outbox** (`Outbox`, `UsageOutbox`, `UsageReporter`): the durable tables, the in-memory
  queue and the reporter's passes.
- **Realtime bridge** (`Realtime`): two pump threads over shared atomics, as interleaved steps.
- **Protocol conversion** (`Json`, `Fields`, `Responses`, `ResponseTheorems`, `ResponseChains`,
  `ChatIr`, the four `...Requests` modules, `RequestConversion`, `Chains`): four wire formats over a
  JSON datatype. RapidJSON's text parser and writer are an abstract pair with one law: parsing
  undoes writing, written text is one line without NUL, and an empty text is no document;
  `CodecExists` shows that it can be met.
  `CStr` is what `c_str()` keeps.
- **Exact codecs and small state machines** (`Bytes`, `WebSocket`, `Sha1`, `Base64`, `Handshake`,
  `Routes`, `CapabilityRegistry`, `AuthCache`).

Where the source changes things step by step, the model has classes and loops, each proved against a
function of its inputs or old state; the theorems are about those functions.

Obvious claims that the code does not meet are kept as the code is, with what does hold:

- a passthrough run can report a complete stream without a terminal event: exactly when a keepalive
  fails or an exempt remainder is over the policy limit (`StreamPipeHonesty.SilentExactly`); both
  happen (`StreamGuarantees.KeepaliveSilence`, `StreamGuarantees.OverflowSilence`);
- the passthrough accumulator is trimmed, so gating on the framed stream holds for all runs exactly
  for policy limits of at most four read buffers (`StreamPipeTrimming.GatedExactlyWithoutTrimming`);
  what holds for all sizes is `StreamPipeTrimming.PassthroughIsVetted`. Without a policy, the
  events whose usage and terminal marks are taken are those of the framed stream exactly as long as
  no remainder goes over four read buffers (`StreamNotice.NoticesExactly`), and a stream that ends as
  it should can be reported as broken off (`StreamPipeTrimming.TerminalLost`);
- a request-conversion failure leaves its lease open, the only answer of the outside world after which
  a lease stays unsettled (`Settlement.OpenExactly`, `Settlement.LeftOpenHappens`), as long as the
  local evidence rows can be written (see below);
- a hundred retryable leases block all later ones (`UsageReporter.StuckForever`, and exactly how far
  in `UsageReporter.NextPassReaches`), although the reporter's comment says that none blocks another;
  and evidence waits until a usage event does (`UsageReporter.RunPass`);
- the in-memory outbox removes only a settled lead, and with two events of one lease in a batch of a
  hundred not even that (`UsageReporter.DropsLeadExactly`);
- the OpenAI request serializer writes tool-use blocks as empty objects
  (`OpenAiRequests.UnsupportedExactly`), and the Anthropic one drops calls without a block
  (`AnthropicRequests.CallsBack`);
- a frame encoded with a mask carries no key (`WebSocket.ReadsBackExactlyUnmasked`);
- the malformed mark of a stream is that of its last usage only (`StreamUsage.TransformCounts`);
- an emitted token total wraps when the sum exceeds an int (`ResponseChains.ConversionTotals`).

## Model

| member | source | states |
|---|---|---|
| `Sse.SearchIsFirstEvent` | src/forwarder/stream_pipe.cpp:270-279 | The delimiter search, which compares where LF LF and CRLF CRLF start, finds the shortest prefix of the buffer that ends in a delimiter |
| `Sse.SearchFrom` | src/forwarder/stream_pipe.cpp:270-279 | Searching from a consumed offset finds the first event of the rest, at its shifted position |
| `Sse.SearchFrames` | src/forwarder/stream_pipe.cpp:372-423 | One search from an offset cuts the next event off the framing of the rest |
| `Sse.CutStable` | src/forwarder/stream_pipe.cpp:269-301 | The earliest event of a prefix is still the earliest event of every longer stream |
| `Sse.FramingResumes` | src/forwarder/stream_pipe.cpp:372-423 | Framing can be resumed at any byte: events and remainder of a concatenation are those of the first part, then those of its remainder with the rest |
| `Sse.FramingConserves` | src/forwarder/stream_pipe.cpp:372-423 | Events and remainder together are the stream, byte for byte |
| `Sse.FramesBack` | src/forwarder/stream_pipe.cpp:372-423 | A stream of single events frames back into exactly those events |
| `StreamFormats.ScanFields` | src/forwarder/stream_pipe.cpp:541-559 | The line scan of one event yields its last event name and its last data payload |
| `StreamFormats.FirstGeminiPart` | src/protocol/gemini_format.cpp:290-345 | The scan over parts yields the delta of the first part that carries text or a call |
| `StreamFormats.SerializedIsOneEvent` | src/protocol/openai_format.cpp:267-334 | Every serialized delta, in every target format, is exactly one SSE event |
| `StreamFormats.SerializedText` | src/protocol/anthropic_format.cpp:230-391 | Parsing a serialized delta again gives its text when it is a text delta and no text otherwise |
| `StreamFormats.StreamedTextSurvives` | src/protocol/openai_responses_format.cpp:211-290 | For every sequence of deltas and every target format, the re-framed and re-parsed output concatenates to the text of the text deltas |
| `StreamEndToEnd.FramedIsSingle` | src/forwarder/stream_pipe.cpp:372-423 | Every framed event is itself exactly one event |
| `StreamEndToEnd.StreamedTextArrives` | src/forwarder/stream_pipe.cpp:536-605 | End to end on every cross-protocol route without a policy: whatever the chunking, the clock and the write sizes, a client that stays reads exactly the text of the provider events that carry data, and no partial event |
| `StreamRules.Escape` | src/forwarder/stream_pipe.cpp:121-149 | The quoting loop appends the escapes of the characters, in order |
| `StreamRules.Quote` | src/forwarder/stream_pipe.cpp:121-149 | It writes the JSON string literal of its argument |
| `StreamRulesTheorems.QuoteReadsBack` | src/forwarder/stream_pipe.cpp:121-149 | Reading the body of a quoted string character by character gives the string back |
| `StreamRulesTheorems.PolicyErrorIsOneEvent` | src/forwarder/stream_pipe.cpp:151-165 | Whatever its code and message, the policy error is exactly one SSE event, in every client format |
| `StreamRules.HasFinish` | src/forwarder/stream_pipe.cpp:460-476 | The scan over choices or candidates finds a non-empty finish reason if there is one |
| `StreamRulesTheorems.ObserveIsHonest` | src/forwarder/stream_pipe.cpp:430-534 | Observing an event never lowers a usage counter and marks a terminal event exactly when it is one |
| `StreamPump.Pump.constructor` | src/forwarder/stream_pipe.cpp:61-66 | A new pump has an empty accumulator and nothing sent |
| `StreamPump.Pump.WriteAll` | src/forwarder/stream_pipe.cpp:68-80 | Writes until all is taken or the client is gone, as the write function does it |
| `StreamPump.Pump.ApplyPolicy` | src/forwarder/stream_pipe.cpp:82-119 | Decides one event and records a refusal, as the policy function does it |
| `StreamPump.Pump.ProcessEvent` | src/forwarder/stream_pipe.cpp:402-417 | Observes, gates and delivers one event, and says whether the run returns |
| `StreamPump.Pump.Drain` | src/forwarder/stream_pipe.cpp:372-423 | The inner loop feeds exactly the framed events of the accumulator and keeps its remainder |
| `StreamPump.Pump.RunTransform` | src/forwarder/stream_pipe.cpp:317-428 | The read loop ends in the state of the transform run over the same reads, clock and writes |
| `StreamPump.Pump.RunPassthrough` | src/forwarder/stream_pipe.cpp:179-315 | The read loop ends in the state of the passthrough run over the same reads, clock and writes |
| `StreamPump.Pump.KeepClientAlive` | src/forwarder/stream_pipe.cpp:607-617 | A keepalive toward a silent client, and the exit when its write fails |
| `StreamPump.Pump.PassChunk` | src/forwarder/stream_pipe.cpp:245-311 | One chunk of a passthrough: raw write without a policy, framing, oversized remainder, trimming |
| `StreamPipeTheorems.WriteEffect` | src/forwarder/stream_pipe.cpp:68-80 | However writes are split, the client holds a prefix of the data; all of it exactly when no write fails |
| `StreamPipeTheorems.FeedDelivers` | src/forwarder/stream_pipe.cpp:402-417 | For every event list and write behaviour the client holds a prefix of the gated delivery, and all of it if it never disconnects |
| `StreamPipeTheorems.DeliveryIsGated` | src/forwarder/stream_pipe.cpp:82-119 | A delivery is the client forms of a leading run of allowed or exempt events and at most one policy error, for the first event that is neither |
| `StreamPipeTheorems.ChunkingDoesNotMatter` | src/forwarder/stream_pipe.cpp:369-423 | For every stream, every split of it into reads, every policy and every write behaviour, the transform ends as the one-shot framing of the whole stream |
| `StreamPipeTheorems.SplitsAgree` | src/forwarder/stream_pipe.cpp:369-423 | Any two splits of one stream give the same client bytes, usage, terminal and policy flags |
| `StreamPipeTheorems.TransformIsGated` | src/forwarder/stream_pipe.cpp:402-417 | Client bytes of every transform run are a prefix of passed client forms followed by at most one policy error |
| `StreamPipeTheorems.PassthroughIsGated` | src/forwarder/stream_pipe.cpp:286-310 | The same for every passthrough run with a policy in which no remainder is trimmed |
| `StreamPipeTheorems.PassthroughIsRaw` | src/forwarder/stream_pipe.cpp:245-263 | Without a policy the client holds a prefix of the raw stream, all of it while the run goes on |
| `StreamPipeTrimming.PassthroughIsVetted` | src/forwarder/stream_pipe.cpp:286-311 | Whatever the buffer sizes, nothing reaches the client of a passthrough run that did not pass the policy |
| `StreamPipeTrimming.DripEvent` | src/forwarder/stream_pipe.cpp:267-310 | Whatever the read buffer, an event over four buffers that is read byte by byte is cut down to a later part of itself, and that part is what the pipe sees |
| `StreamPipeTrimming.TrimmedRun` | src/forwarder/stream_pipe.cpp:197-310 | On every pass-through route, with an allowing policy whose limit is above four read buffers and reads that fit the buffer, the client is sent an event without its front |
| `StreamPipeTrimming.TrimmedRunNotGated` | src/forwarder/stream_pipe.cpp:308-310 | Those client bytes are no prefix of client forms of the framed stream and an error event |
| `StreamPipeTrimming.GatedExactlyWithoutTrimming` | src/forwarder/stream_pipe.cpp:302-310 | On every pass-through route, over reads that fit the buffer: all runs are gated on the framed stream if and only if nothing can be read or the policy limit is at most four read buffers |
| `StreamPipeTrimming.TerminalLost` | src/forwarder/stream_pipe.cpp:302-310 | Without a policy, whatever the read buffer, an Anthropic stream that ends with a terminal event over four buffers is passed on whole and reported as broken off by the provider |
| `StreamPipeHonesty.TransformIsHonest` | src/forwarder/stream_pipe.cpp:317-428 | A finished transform that is not incomplete has seen a terminal event; blocked and failed-closed exclude each other and imply incomplete; counters are non-negative |
| `StreamPipeHonesty.TransformGrows` | src/forwarder/stream_pipe.cpp:479-534 | Token counters and forwarded bytes only grow along a run, and a seen terminal event stays seen |
| `StreamPipeHonesty.TerminalWasSent` | src/forwarder/stream_pipe.cpp:430-477 | A terminal event counts as seen only if the framed stream holds one |
| `StreamPipeHonesty.PassthroughIsHonest` | src/forwarder/stream_pipe.cpp:179-315 | The same for every passthrough run that ends by a deadline, the end of the stream, an event or a failed write |
| `StreamPipeHonesty.SilentTurn` | src/forwarder/stream_pipe.cpp:179-315 | From every running state and for every next turn: the turn ends the run neither incomplete nor with a terminal event if and only if none was seen and it is a silent stall within its deadline whose keepalive write takes nothing, or data that stops nothing, ends nothing and leaves an exempt remainder over the policy limit |
| `StreamPipeHonesty.SilentExactly` | src/forwarder/stream_pipe.cpp:179-315 | Every passthrough run reports a complete stream without a terminal event if and only if one of its turns is such a turn |
| `StreamGuarantees.TransformGuarantees` | src/forwarder/stream_pipe.cpp:317-428 | For the rules of every route: gated bytes with at most one error frame, honest flags, and no terminal flag without a terminal event |
| `StreamGuarantees.PassthroughGuarantees` | src/forwarder/stream_pipe.cpp:179-315 | For the rules of every route, with a policy and no trimming: gated bytes with at most one error frame, honest flags, no terminal flag without a terminal event, and the exact runs that end silently |
| `StreamGuarantees.RawGuarantees` | src/forwarder/stream_pipe.cpp:179-315 | For every pass-through route without a policy: the raw stream, honest flags, the exact runs that end silently, and no terminal flag without a terminal event when nothing was trimmed |
| `StreamGuarantees.NoticedTerminal` | src/forwarder/stream_pipe.cpp:279-285 | In any passthrough run, trimmed or not, the terminal flag needs a terminal event among those the run framed |
| `StreamGuarantees.PassedTerminal` | src/forwarder/stream_pipe.cpp:279-285 | When nothing was trimmed it needs one in the framed stream |
| `StreamGuarantees.KeepaliveSilence` | src/forwarder/stream_pipe.cpp:219-226 | On every route, a first keepalive that fails makes an empty stream complete |
| `StreamGuarantees.OverflowSilence` | src/forwarder/stream_pipe.cpp:302-307 | On every route, for all sizes that never trim and hold the marker, a stream whose last line is the end marker and never ends is complete once it is over the policy limit |
| `StreamMarks.FeedMarks` | src/forwarder/stream_pipe.cpp:402-417 | Delivering, gating and refusing move no counter or flag: events leave the marks of a leading run of them, all of them unless one stops the pipe |
| `StreamMarks.TransformMarks` | src/forwarder/stream_pipe.cpp:317-428 | Every transform run, however it ends, carries the marks of a leading run of the framed events, and of all that were read before it ended unless an event stopped it |
| `StreamNotice.NoticedMarks` | src/forwarder/stream_pipe.cpp:179-315 | Every passthrough run, trimmed or not, carries the marks of the events it framed, up to one that stopped it |
| `StreamNotice.NoticesExactly` | src/forwarder/stream_pipe.cpp:265-310 | While a passthrough run is on, the events it framed and the remainder it holds are those of the framed stream if and only if no remainder ever went over four read buffers |
| `StreamNotice.PassthroughMarks` | src/forwarder/stream_pipe.cpp:179-315 | Every passthrough run that is not trimmed, however it ends, carries the marks of a leading run of the framed events |
| `StreamUsage.ObserveTallies` | src/forwarder/stream_pipe.cpp:479-534 | Observing an event takes the larger of the old and the reported count, for each of the five counters and all their keys, and the verdict of the newest usage |
| `StreamUsage.TransformCounts` | src/forwarder/stream_pipe.cpp:317-534 | Every transform run, however it ends: each counter is the largest count, the malformed mark the last verdict and the terminal mark the presence of a terminal event over a leading run of the framed events, all those read before the end unless an event stopped the run |
| `StreamUsage.PassthroughCounts` | src/forwarder/stream_pipe.cpp:179-315 | The same for every passthrough run that is not trimmed; an oversized run counts its last chunk too |
| `StreamUsage.NoticedCounts` | src/forwarder/stream_pipe.cpp:265-310 | A trimmed passthrough run carries the counts, verdict and terminal mark of the events it framed instead |
| `StreamUsage.PeakIsMaximum` | src/forwarder/stream_pipe.cpp:506-527 | That largest count is reached by some event, or zero, and exceeded by none |
| `Forwarder.SuccessExactly` | src/forwarder/forwarder.cpp:545-620 | A stream is classified a success if and only if it is complete, not cancelled, not withheld and, should the client be gone, had started its output |
| `Forwarder.OutputGate.constructor` | src/forwarder/forwarder.cpp:393-406 | No output has started |
| `Forwarder.OutputGate.OnWritten` | src/forwarder/forwarder.cpp:393-406 | The first written byte raises the output evidence, once |
| `ForwarderTheorems.TransformedSuccessIsComplete` | src/forwarder/forwarder.cpp:545-620 | A converted stream classified as a success really contained a terminal event |
| `ForwarderTheorems.PassedSuccess` | src/forwarder/forwarder.cpp:545-620 | A passed-through stream is a success only if the pipe framed a terminal event, which the provider really sent when nothing was trimmed, or one of the two silent turns ended it; and such a turn is enough once output has started and nothing else cancels |
| `Dispatch.DispatchDelayBacksOff` | src/dispatch/capnp_dispatch_client.h:124-127 | Delays between dispatch retries grow and stay within 50 ms and one second |
| `Dispatch.DelayBacksOff` | src/forwarder/retry_policy.cpp:6-9 | Retry delays grow with the attempt within their limits; the 32-bit product does not wrap |
| `Failover.FailoverController.constructor` | src/forwarder/failover.cpp:5-6 | No account has failed and nothing was retried |
| `Failover.FailoverController.OnError` | src/forwarder/failover.cpp:8-30 | Counters, failed accounts and action after an error |
| `Failover.FailedExactly` | src/forwarder/failover.cpp:8-30 | Over any list of errors an account counts as failed if and only if one condemned it or its other errors passed the limit |
| `Failover.InitialBudget` | src/forwarder/failover.cpp:5-6 | The budget of tries over N accounts is the switches plus N times the same-account retries |
| `Failover.ErrorSpends` | src/forwarder/failover.cpp:8-30 | Every error that allows another try uses up part of that budget |
| `Gateway.AwaitGrant` | src/server/gateway_handler.cpp:957-1072 | Takes the first grant among the answers, or gives up at a final one. Every answer passed over is in time and a wait or a transport failure; the two counters are the numbers of those answers in the whole request, and at most eight each |
| `Gateway.AfterCall` | src/server/gateway_handler.cpp:1206-1314 | After a call: one unknown abort for a broken-off stream and one for malformed usage, otherwise one abort for an error status, without charge exactly for an explicit rejection; another try exactly when the rejection is retryable, in time and within the failover budget |
| `Gateway.TryLease` | src/server/gateway_handler.cpp:1073-1317 | One lease up to the end of the loop: the Provider is called, with the answer it gives, exactly when the request converts and the evidence is acknowledged |
| `Gateway.CheckResponse` | src/server/gateway_handler.cpp:1319-1418 | Aborts with an unknown charge and turns the status into 502 exactly when a check of a present body fails |
| `Gateway.PersistMedia` | src/server/gateway_handler.cpp:1495-1536 | A media task that the Platform refuses is aborted with an unknown charge; the usage is deferred exactly for an accepted task that runs on after no failure |
| `Gateway.ReleaseControl` | src/server/gateway_handler.cpp:1543-1559 | Successful calls that are not billable release their hold, which settles the lease exactly when it is acknowledged |
| `Gateway.ReportUsage` | src/server/gateway_handler.cpp:1574-1674 | A usage event is recorded, or reported at once when recording fails, exactly for a lease that nothing ended or whose incomplete stream carried usage, and whose task is not deferred |
| `Gateway.SettleAborts` | src/server/gateway_handler.cpp:1319-1559 | The aborts of the settlement, in order and numbered through, and what they leave: whether the lease is ended, whether its usage is deferred |
| `Gateway.Settle` | src/server/gateway_handler.cpp:1319-1674 | From the end of the loop to the end of the request: the aborts in order, then the usage event, the deferral or nothing |
| `Gateway.ServeLease` | src/server/gateway_handler.cpp:1073-1674 | Everything that happens under one grant |
| `Gateway.ServeLeases` | src/server/gateway_handler.cpp:944-1317 | Retried leases and the last one: a retry id of its own for each, at most 10 + 3N of them over N accounts; the answers between grants are passed over as above |
| `Gateway.Handle` | src/server/gateway_handler.cpp:944-1674 | For every Platform, Provider and clock: one lease for each grant among the dispatch answers, on its account, with exactly the steps its answers call for; each settled soundly, left open exactly when its request does not convert, and called exactly when it may be; the request ends at a lease not to be retried or at a final refusal; every answer before the last is a grant or, in time, one of at most eight waits and eight transport failures; at most 11 + 3N leases over N accounts |
| `Settlement.AgainSteps` | src/server/gateway_handler.cpp:1268-1312 | A lease is retried only after evidence, one call, an explicit rejection and one abort without charge |
| `Settlement.CalledExactly` | src/server/gateway_handler.cpp:1091-1206 | The Provider is called under the k-th lease, and answers as it does, exactly when the request converts and the evidence is acknowledged |
| `Settlement.OpenExactly` | src/server/gateway_handler.cpp:1091-1105 | A lease is never settled if and only if its request does not convert and no media task state was refused |
| `Settlement.LeftOpenHappens` | src/server/gateway_handler.cpp:1091-1105 | For every chat request with a body there is a world in which its lease stays open |
| `SettlementTheorems.StepsSound` | src/server/gateway_handler.cpp:1073-1674 | Whatever the answers: at most one usage event; none with an acknowledged no-charge abort, with malformed usage or without a call; with an unknown abort exactly for late usage; nothing left open but unconverted requests |
| `SettlementTheorems.GoesOn` | src/server/gateway_handler.cpp:1296-1312 | A retry keeps the loop state: a fresh id, and exactly the accounts failed by then excluded |
| `SettlementTheorems.EndsServed` | src/server/gateway_handler.cpp:955-1674 | Retried leases and a last one, or none, make a request as `Handle` promises it |
| `Lease.RetriedIsSound` | src/server/gateway_handler.cpp:1268-1312 | A retried lease is settled: evidence, one call, a no-charge abort, no usage |
| `Lease.EndsSettledWith` | src/server/gateway_handler.cpp:955-1674 | Retried leases followed by a soundly settled one make a well settled request |
| `Realtime.StepKeeps` | src/server/gateway_handler.cpp:437-526 | Every atomic step of either pump keeps the byte, frame and evidence invariants |
| `Realtime.CapsHold` | src/server/gateway_handler.cpp:437-526 | Under every interleaving: forwarded bytes and frames stay within their caps (or the first frame), and output evidence is recorded at most once |
| `Realtime.DoneStops` | src/server/gateway_handler.cpp:437-526 | Once the session is done it stays done, and no frame leaves but those a pump was already sending |
| `Responses.ConcatTexts` | src/protocol/converter.cpp:740-746 | The loop concatenates the block texts |
| `Responses.ConcatItems` | src/protocol/converter.cpp:747-756 | The nested loop concatenates the block texts of all output items |
| `Responses.CollectText` | src/protocol/converter.cpp:729-770 | The text of a response: the first of its sources that has it |
| `Responses.ExtractToolCalls` | src/protocol/converter.cpp:651-727 | One pass collects the calls in order; Gemini calls are numbered |
| `ResponseTheorems.WrittenReadsBack` | src/protocol/converter.cpp:1069-1191 | What is written for a format is convertible and reads back the text, the stored calls and the reread finish reason |
| `ResponseTheorems.TextClean` | src/protocol/converter.cpp:729-770 | Response text never holds a NUL |
| `ResponseTheorems.CallsClean` | src/protocol/converter.cpp:651-727 | Neither do ids, names and arguments of calls |
| `ResponseChains.ConversionKeepsMeaning` | src/protocol/converter.cpp:1051-1197 | Every successful conversion keeps text, ordered names and argument objects (others become {}), a stop on length, and the input, output and cache-read counts |
| `ResponseChains.ConversionSucceeds` | src/protocol/converter.cpp:1051-1068 | A conversion to another format succeeds if and only if the shape is supported; its output is supported again, and one with calls reads back as tool calls |
| `ResponseChains.ConversionKeepsIds` | src/protocol/converter.cpp:651-727 | Call ids are kept unless the target is Gemini |
| `ResponseChains.ConversionTotals` | src/protocol/converter.cpp:886-923 | Source counts are never negative, and a written total is their sum if and only if that fits an int |
| `ResponseChains.UsageReadsBack` | src/protocol/converter.cpp:852-924 | Written usage reads back the same input, output and cache-read counts |
| `ResponseChains.ChainKeepsMeaning` | src/protocol/converter.cpp:1051-1197 | Any chain of conversions keeps the meaning and the counts |
| `ResponseChains.ChainKeepsIds` | src/protocol/converter.cpp:1051-1197 | Any chain that avoids Gemini keeps the call ids |
| `ResponseChains.ChainSucceeds` | src/protocol/converter.cpp:1051-1197 | A chain that leaves its first format succeeds if and only if the source is convertible |
| `CodecExists.LawIsMet` | src/protocol/converter.cpp:1193-1196 | The law assumed of parsing and writing documents can be met, so nothing proved from it is empty |
| `ChatIr.TextContent` | src/protocol/chat_ir.h:47-56 | The text of a message: its text blocks, separated by line feeds once there is something to separate |
| `ChatIr.ReadMessages` | src/protocol/openai_format.cpp:96-138 | The loop over messages fills system text, messages and the unsupported flag |
| `ChatIr.ExtractBlocks` | src/protocol/openai_format.cpp:20-66 | The loop over content parts collects blocks and flags unsupported ones |
| `OpenAiRequests.ParseMessages` | src/protocol/openai_format.cpp:96-138 | The message loop against the parsed system text, messages and flag |
| `OpenAiRequests.RoundTrip` | src/protocol/openai_format.cpp:68-265 | Parsing a serialized plain request gives a plain request that says the same |
| `OpenAiRequests.UnsupportedExactly` | src/protocol/openai_format.cpp:184-208 | For every request: the written form is refused on the way back if and only if a message sends a tool-use or image block, which goes out as an empty object |
| `AnthropicRequests.ParseMessages` | src/protocol/anthropic_format.cpp:60-121 | The message loop against the parsed messages and flag |
| `AnthropicRequests.RoundTrip` | src/protocol/anthropic_format.cpp:20-228 | Parsing a serialized plain request gives a plain request that says the same |
| `AnthropicRequests.CallsBack` | src/protocol/anthropic_format.cpp:167-204 | For every message: the calls read back are those of its tool-use blocks, so a call without a block is dropped |
| `ResponsesRequests.BuildInput` | src/protocol/openai_responses_format.cpp:138-171 | The loop that turns messages into input items |
| `ResponsesRequests.RoundTrip` | src/protocol/openai_responses_format.cpp:20-209 | Parsing a serialized plain request gives a plain request that says the same |
| `GeminiRequests.ParseParts` | src/protocol/gemini_format.cpp:61-104 | The loop over parts, with its call counter and the call id it leaves behind |
| `GeminiRequests.RoundTrip` | src/protocol/gemini_format.cpp:20-222 | Parsing a serialized plain request gives a plain request that says the same |
| `RequestConversion.RoundTrip` | src/protocol/converter.cpp:435-477 | In every format, parse after serialize keeps system text, roles and texts in order, tools with their parameter objects, temperature, top_p and the token limit (4096 when not positive) |
| `RequestConversion.RestReadsBack` | src/protocol/converter.cpp:435-477 | What each format does to stop sequences, streaming, user id and model |
| `RequestConversion.EmptyBody` | src/protocol/converter.cpp:442-456 | A body that is no JSON object parses to the empty request in every format |
| `RequestConversion.OrdinaryIsPlain` | src/protocol/converter.cpp:442-456 | The parsers produce no NUL, so the round trip asks for nothing but ordinary roles and no tool traffic |
| `RequestConversion.OrdinarySurvives` | src/protocol/converter.cpp:435-477 | Converting an ordinary request succeeds, gives an ordinary request and keeps what it says |
| `RequestConversion.ChainKeepsRequest` | src/protocol/converter.cpp:435-477 | So does any chain of conversions |
| `Outbox.InsertKeeps` | src/usage/usage_collector.cpp:160-229 | Recording under a present key changes nothing; under a new one it adds a waiting row; other keys are untouched |
| `Outbox.DeleteKeeps` | src/usage/usage_collector.cpp:302-318 | Deleting removes that key and no other |
| `Outbox.MarkKeeps` | src/usage/usage_collector.cpp:320-341 | Settling marks a waiting row under that key and no other row |
| `Outbox.PendingMark` | src/usage/usage_collector.cpp:320-341 | A settled row leaves the pending ones, the others keep their order |
| `UsageOutbox.Conserves` | src/usage/usage_collector.cpp:160-341 | After any run of records, batches, reports and restarts the table holds, for every lease, exactly what its own events call for: the first report recorded, waiting or put aside |
| `UsageOutbox.ReportsAreDue` | src/usage/usage_reporter.cpp:41-85 | Only a waiting lease is ever reported, and with its first-recorded content |
| `UsageOutbox.RecordedIsAccounted` | src/usage/usage_collector.cpp:160-341 | A recorded lease waits, is dead-lettered, or was acknowledged since |
| `UsageOutbox.PutAsideStays` | src/usage/usage_collector.cpp:320-341 | A dead letter is never revived, whatever is recorded or reported later |
| `UsageReporter.UsageCollector.constructor` | src/usage/usage_collector.cpp:68-76 | An empty collector, durable or in memory |
| `UsageReporter.UsageCollector.Record` | src/usage/usage_collector.cpp:160-229 | Inserts or leaves the row; appends in memory |
| `UsageReporter.UsageCollector.Peek` | src/usage/usage_collector.cpp:231-300 | The first waiting events, in order, up to the limit |
| `UsageReporter.UsageCollector.Acknowledge` | src/usage/usage_collector.cpp:302-318 | Deletes the row; in memory only a matching front element |
| `UsageReporter.UsageCollector.DeadLetter` | src/usage/usage_collector.cpp:320-341 | Puts the row aside; in memory drops a matching front element |
| `UsageReporter.UsageCollector.RecordEvidence` | src/usage/usage_collector.cpp:356-377 | Inserts an evidence row once per lease and stage |
| `UsageReporter.UsageCollector.SettleEvidenceRow` | src/usage/usage_collector.cpp:401-441 | Settles an evidence row, with or without an error |
| `UsageReporter.ReportOne` | src/usage/usage_reporter.cpp:46-108 | One report and what its answer does to the collector |
| `UsageReporter.ReportUsage` | src/usage/usage_reporter.cpp:41-108 | Every event of the batch is attempted once, in order, whatever became of those before |
| `UsageReporter.ReportEvidence` | src/usage/usage_reporter.cpp:110-135 | The same for evidence rows |
| `UsageReporter.RunPass` | src/usage/usage_reporter.cpp:37-136 | One whole pass; without a waiting usage event the evidence is not looked at |
| `UsageReporter.PassLeaves` | src/usage/usage_reporter.cpp:41-108 | After a pass exactly the retryable rows of the batch are still pending, in order, in front of the rows it did not reach |
| `UsageReporter.PassIsRun` | src/usage/usage_reporter.cpp:41-108 | A pass is a run of the outbox steps |
| `UsageReporter.EvidencePassLeaves` | src/usage/usage_reporter.cpp:110-135 | The same for a pass over the evidence rows |
| `UsageReporter.PassMoves` | src/usage/usage_reporter.cpp:41-108 | A pass moves a lease behind its batch forward by exactly the leases it settles |
| `UsageReporter.NextPassReaches` | src/usage/usage_reporter.cpp:41-108 | After any number of passes, a lease that none has reached is in the next batch of 100 if and only if the passes have settled enough of the leases before it |
| `UsageReporter.StuckForever` | src/usage/usage_reporter.cpp:41-108 | As long as every answer is a retryable failure, no number of passes reaches a lease behind the first hundred |
| `UsageReporter.MemoryPops` | src/usage/usage_collector.cpp:302-307 | At every point of a pass over a batch from its front, the memory has lost from the front one event for each settled event whose lease was that of the front |
| `UsageReporter.DropsLeadExactly` | src/usage/usage_collector.cpp:302-307 | Whatever the answers, a settled event leaves the memory exactly when every event before it was settled too, both at every point and at the end of a pass over the first hundred, if and only if no two of those hundred are of one lease |
| `UsageReporter.SecondDropsFirst` | src/usage/usage_collector.cpp:302-307 | The smallest memory where it fails: settling the second of two events of one lease drops the first |
| `WebSocket.ReadLength` | src/server/websocket.cpp:131-137 | The length bytes, shifted in one by one, are the big-endian number |
| `WebSocket.UnmaskInPlace` | src/server/websocket.cpp:149-152 | The payload is unmasked in place, byte by byte |
| `WebSocket.ParseFrame` | src/server/websocket.cpp:118-156 | The whole parser against the parse function |
| `WebSocket.WriteLength` | src/server/websocket.cpp:171-172 | The length bytes are written highest first |
| `WebSocket.WritePrefix` | src/server/websocket.cpp:162-173 | The length byte, and the two or eight bytes behind it |
| `WebSocket.EncodeFrame` | src/server/websocket.cpp:158-177 | The whole encoder against the encode function |
| `WebSocket.ConsumesExactly` | src/server/websocket.cpp:118-156 | A complete frame is the same for the consumed bytes and for any more of them, and Incomplete for any fewer |
| `WebSocket.EncodedReadsBack` | src/server/websocket.cpp:158-177 | An unmasked encoding, in all three length forms, parses to its frame and is consumed exactly |
| `WebSocket.EncodedInStream` | src/server/websocket.cpp:118-177 | Also in front of any bytes, and every strict prefix is incomplete |
| `WebSocket.MaskedReadsBack` | src/server/websocket.cpp:139-152 | A frame masked as section 5.3 of RFC 6455 says parses to its unmasked payload |
| `WebSocket.ReadsBackExactlyUnmasked` | src/server/websocket.cpp:162-175 | A frame encoded by itself reads back if and only if no mask was asked for, since no key is written |
| `Sha1.FillSchedule` | src/server/websocket.cpp:36-42 | The word array is the schedule of section 6.1 of RFC 3174 |
| `Sha1.Transform` | src/server/websocket.cpp:36-58 | The block transform of section 6.1 of RFC 3174, on the state array |
| `Sha1.FinalBlocks` | src/server/websocket.cpp:71-78 | The last blocks are the rest of the message with the padding of section 4 of RFC 3174 |
| `Sha1.Sha1Words` | src/server/websocket.cpp:60-81 | The digest words are the block transform folded over the padded message, for every byte string |
| `Handshake.Temp` | src/server/websocket.cpp:45-53 | The step value of section 6.1 of RFC 3174, though the source adds the constant before the word |
| `Handshake.ComputeSha1` | src/server/websocket.cpp:60-91 | The digest bytes of those words |
| `Base64.EncodeBytes` | src/server/websocket.cpp:95-108 | The loop writes the groups of the encoding |
| `Base64.DecodesBack` | src/server/websocket.cpp:95-108 | A decoder of section 4 of RFC 4648 inverts the encoding, for every byte string |
| `Base64.EncodedLength` | src/server/websocket.cpp:95-108 | Four characters for every three bytes begun |
| `Base64.AlphabetReadable` | src/server/websocket.cpp:93 | Every letter of the alphabet decodes to its place |
| `Handshake.Accept` | src/server/websocket.cpp:110-116 | 28 characters that decode to the SHA-1 digest of the key and the fixed string |
| `Routes.SafeSegment` | src/server/capability_registry.cpp:55-65 | The segment check: 1 to 128 allowed characters, not all dots |
| `Routes.SafePathChars` | src/server/capability_registry.cpp:55-65 | A safe path starts with a slash and holds only allowed characters, slashes and colons |
| `CapabilityRegistry.ContentIsSafe` | src/server/capability_registry.cpp:88-93 | The item-content case is safe also when the length subtraction wraps around |
| `CapabilityRegistry.SharedSlashIsAccepted` | src/server/capability_registry.cpp:88-93 | The wrapped case exists: below every batch, items/content is accepted as an item named content |
| `CapabilityRegistry.BatchIsSafe` | src/server/capability_registry.cpp:67-95 | Every accepted batch path splits into safe segments |
| `CapabilityRegistry.VideoIsSafe` | src/server/capability_registry.cpp:97-118 | Every accepted video path does |
| `CapabilityRegistry.OpenAiIsSafe` | src/server/capability_registry.cpp:120-190 | Every path the OpenAI router accepts does |
| `CapabilityRegistry.GeminiIsSafe` | src/server/capability_registry.cpp:192-208 | Every path the Gemini router accepts does, its last segment perhaps with an action behind one colon |
| `CapabilityRegistry.AcceptedIsSafe` | src/server/capability_registry.cpp:249-271 | Every accepted path, for any method and prefix, is a slash before each of some safe segments |
| `CapabilityRegistry.IsSafeQueryString` | src/server/capability_registry.cpp:231-247 | A query is accepted if and only if it is empty or a question mark and printable characters with complete percent escapes |
| `AuthCache.VersionTracker.constructor` | src/auth/invalidation_subscriber.cpp:16-35 | A fresh tracker knows no version |
| `AuthCache.VersionTracker.Observe` | src/auth/invalidation_subscriber.cpp:16-35 | What is remembered after a poll, and whether it flushes |
| `AuthCache.QuietExactly` | src/auth/invalidation_subscriber.cpp:16-35 | A tracker never flushes if and only if the polls, counting the one before, are misses followed by one constant version |
| `AuthCache.SpeculativeCache.constructor` | src/auth/speculative_cache.cpp:11-16 | An empty cache |
| `AuthCache.SpeculativeCache.Lookup` | src/auth/speculative_cache.cpp:20-24 | The entry, if there is one |
| `AuthCache.SpeculativeCache.Insert` | src/auth/speculative_cache.cpp:26-31 | A full cache is cleared before the entry goes in |
| `AuthCache.SpeculativeCache.Evict` | src/auth/speculative_cache.cpp:33-35 | One entry is removed |
| `AuthCache.SpeculativeCache.EvictAll` | src/auth/speculative_cache.cpp:37-39 | All entries are removed |
| `AuthCache.PollOnce` | src/auth/invalidation_subscriber.cpp:60-77 | One turn of the poll loop |
| `AuthCache.SizeIsBounded` | src/auth/speculative_cache.cpp:26-31 | Over any run the cache holds at most its maximum, and one entry when that is zero |
| `AuthCache.HitIsCurrent` | src/auth/speculative_cache.cpp:20-39 | Over any run a hit is the last snapshot inserted for its key, and the polls it has seen are misses followed by one constant version |
| `AuthCache.HitWasInserted` | src/auth/speculative_cache.cpp:20-39 | Every hit was inserted and not inserted again since |

## Left out

- Sockets, TLS, threads of the runtime and HTTP plumbing: only their results are modelled, as oracles.
- RapidJSON's grammar and SQLite: an abstract codec with a round-trip law, and ordered keyed tables. Objects are maps, so duplicate members are not modelled; a lease token holds no NUL.
- Rounding: JSON numbers are exact integers or decimals, and reading an integer as a double is exact.
- A `tool_result` part whose `text` is not a string makes RapidJSON assert; the model reads it as empty.
- Request history with tool calls across formats: the code does not keep it; stated exactly for the OpenAI and Anthropic serializers only.
- Failures of the local evidence table: `record_evidence` and `acknowledge_evidence` throw when SQLite fails, and a throw between grant and settlement leaves the lease unsettled; `Gateway.Handle` takes both calls to succeed.
- Request-body validation, prompt checks and the response validators in `handle`: each is settled by reading one branch, and the validators' verdicts are oracles.
- The realtime session's own dispatch, settlement and close handshake: the model covers the two pumps and their caps.
- Media polling, blob upload, `drain`, metrics, logging, fault injection and hashing of keys: no property spans them.
- Copying of usage columns and Cap'n Proto fields: a usage event is a token and one report value.
- `is_safe_path_suffix`, `path_matches_any` and the capability records that go with an operation: they would add easy members only.
- Error-body conversion and usage extraction outside streams: field copying without a deeper property.
- `StreamPipeTheorems.PassthroughIsGated`: asks that no remainder is trimmed; the claim is false of trimmed runs, and `StreamPipeTrimming.GatedExactlyWithoutTrimming` gives the sizes for which it holds of all runs.
- Streams converted from CRLF input: `transform_event` keeps a trailing CR in the payload, as modelled; equality with LF input is not claimed.
- Real time: deadlines are answers of the clock oracle, not numbers.
