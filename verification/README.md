# Verification of the gateway's protocol core

The gateway stands between clients that speak the OpenAI Responses protocol and upstreams that speak Chat Completions,
and forwards everything else as it is. This project models its core in Dafny and proves what that core is relied on for.

- **Replies, streamed and whole** (`StreamSpec`, `Stream`, `StreamClient`, `StreamHistory`, `StreamInvariants`,
  `StreamFinish`, `StreamRuns`, `StreamAccounting`, `StreamCompletion`, `StreamFaults`, `StreamTheorems`, `StreamIntake`,
  `StreamHeard`, `StreamIDs`, `Response`). The streaming converter is a class whose methods update its fields; each is
  proved equal to a step of a pure machine. A strict client, defined independently, reads the trace and checks every rule
  of the event protocol. The theorems are about all runs: any upstream, any tool context, a writer that may fail at any
  event. `StreamHeard` says them of the upstream's lines and the response's fields alone.
- **Histories** (`InputSpec`, `Input`, `InputProofs`, `InputWindows`, `InputContents`, `InputMessages`, `Media`,
  `MediaPaths`, `ImageShapes`). `parseInput` reorders a replayed history so that tool results stay next to their calls, and
  moves images out of tool results.
- **Tools and turns** (`Tools`, `Expand`, `ExpandDeclared`, `RoundTrip`, `StreamSaved`, `StreamTurn`, `LruSpec`, `Lru`,
  `ReasoningSource`, `CrossTurn`). Tool names and arguments survive the trip to the client and back, and the reasoning
  cache gives a replayed turn its reasoning again.
- **Recorder** (`Recorder`, `RecorderWorker`). Producers, a bounded channel, a batching worker and the close handshake as
  a transition system over atomic steps.
- **Routing** (`Glob`, `Routing`), **forwarding** (`SseReader`, `SseForward`) and **session listing** (`Listing`).

`dafny verify dfyconfig.toml` checks everything.

## Where the code does not do what one might expect

Each of these is a lemma here with a failing input, and with the exact condition under which the expected property holds.

- A tool call renamed after it was announced leaves the client with a different item than the final one
  (`RenamedCallMisleads`); deltas can be trusted exactly for calls that never change (`ToolFaithfulIff`).
- A message can come between a call and its output when the call id is empty (`EmptyCallIDUnguarded`); for every other
  call it cannot (`ToolAdjacency`), and for an empty one exactly if an item in between lets it out (`WindowExactly`).
- A function declared with `"parameters": null` makes expandTools write to a nil map (`NullSchemaPanics`), and nothing
  else does (`CompletesUnlessNullSchema`).
- A record whose producer checked the closed flag before Close may stay in the channel for ever (`StrandedRecord`). Only
  records of such producers can (`CloseFlushes`), exactly if sent after the worker's exit (`StrandedExactly`).
- With a negative offset the early-stopping listing stops too soon (`NegativeOffsetStopsEarly`), exactly when
  `DisplayIsList` says. The exported method accepts such a query; the program itself never sends one, since its only call
  (cmd/apid-ctl/main.go:105) sets no offset.

## Model

| member | source | states |
|---|---|---|
| `Stream.StreamChatToResponses` | convert/stream.go:46-120 | the read loop as it stands, with every stop (cancellation, upstream error, read error, [DONE], end of file, write failure): the events written and the result returned are those of the machine `StreamSpec.Run`, about which the theorems below speak |
| `Stream.StreamState.EmitEvent` | convert/stream.go:600-607 | events are numbered one by one; after a failed write nothing is written or numbered any more |
| `Stream.StreamState.Reject` | convert/stream.go:585-598 | a refused stream sends response.failed and keeps the reason, joined with an earlier or new write error |
| `Stream.StreamState.Store` | convert/stream.go:561-566 | pads the output list with holes up to the index and puts the item there |
| `Stream.StreamState.CloseReasoning` | convert/stream.go:501-527 | closes an open reasoning item once, in three events, and records it |
| `Stream.StreamState.CloseText` | convert/stream.go:529-559 | closes an open message item once, in three events, and records it |
| `Stream.StreamState.OnReasoning` | convert/stream.go:276-310 | opens or extends the reasoning item; refuses reasoning after text or tools |
| `Stream.StreamState.OnText` | convert/stream.go:312-348 | closes reasoning, opens or extends the message; refuses text after a tool call |
| `Stream.StreamState.Register` | convert/stream.go:350-381 | a fragment starts or updates the record of its index; a new index gets the next output index |
| `Stream.StreamState.StartTool` | convert/stream.go:395-419 | announces a call as soon as it has a name and an id, and replays the arguments held back |
| `Stream.StreamState.OnToolCall` | convert/stream.go:350-393 | closes reasoning and message before any tool item, then registers and announces or extends the call |
| `Stream.StreamState.OnDelta` | convert/stream.go:251-274 | reasoning, then text, then tool fragments of one delta, in that order |
| `Stream.StreamState.OnChunk` | convert/stream.go:124-139 | usage and finish reason are kept from chunks with or without choices; only the first choice is used |
| `Stream.StreamState.FinishCall` | convert/stream.go:428-465 | closing one call: a missing name ends the stream with a failure, a missing id is synthesized, a late call is announced first |
| `Stream.StreamState.FinishAll` | convert/stream.go:421-499 | closes everything in order and sends response.completed or response.incomplete, or stops at the first failure |
| `Stream.StreamState.Conclude` | convert/stream.go:110-119 | a stream cut short or made of reasoning alone is refused, every other one is finished |
| `Stream.StreamState.Result` | convert/stream.go:569-583 | the usage, the non-empty call ids in order, the reasoning and the text |
| `StreamTheorems.TraceGrammar` | convert/stream.go:46-120 | for every upstream, tool context and writer, failing at any event or never: a strict client that checks numbering, opening events, the open/extend/close discipline of items and the final list finds no fault in what it receives; sequence numbers are 1, 2, 3, ...; nothing follows a terminal event |
| `StreamTheorems.OneTerminalEvent` | convert/stream.go:88-119 | without write failure or cancellation there is exactly one terminal event and it is last |
| `StreamFaults.WrittenIsPrefix` | convert/stream.go:600-607 | with a writer that fails after k events, the client has exactly the first k events of the fault-free run |
| `StreamIntake.IntakeIs` | convert/stream.go:73-139 | what the read loop takes from the upstream, line by line: everything up to the first stop, including a line that comes with the end of the file or a read error; the last usage, from chunks with or without choices; the last finish reason; reasoning, text and tool fragments of the first choices one after the other; and whether they come in order |
| `StreamHeard.CompletesIff` | convert/stream.go:73-119 | read off the lines: a stream completes if and only if it ends with [DONE], or at the end of the file after a finish reason, its chunks bring reasoning, text and tool calls in that order and not reasoning alone, and every call is named by one of its fragments |
| `StreamHeard.FailuresSay` | convert/stream.go:73-119 | a stream that neither completes nor is cancelled tells the client last of all why: the upstream's or the reader's message, an early end, reasoning alone, a call without a name, or deltas out of order |
| `StreamTheorems.TextNeverReopened` | convert/stream.go:321-329 | the branch for text after the message item was closed is unreachable, with a writer that fails anywhere or never |
| `StreamTheorems.IndexAccounting` | convert/stream.go:286-289 | in every reachable state, refused streams and failing writers included: the next index is the number of sections started plus the number of calls, the sections have the first indices, and the k-th call has the k-th index after them |
| `StreamAccounting.FeedSteady` | convert/stream.go:276-393 | the invariant behind it, kept by every delta whatever becomes of the events |
| `StreamAccounting.RunAccounted` | convert/stream.go:421-499 | and by the closing phase |
| `StreamHeard.StreamingRefines` | convert/stream.go:421-499 | read off the lines and the fields: a completed stream ends with response.incomplete if and only if the last finish reason is length or content_filter, with its reason; it carries the last usage sent, field by field; it lists what `ChatToResponses` lists for the message the chunks add up to, up to ids and the message status known when it was closed; and the client has already rebuilt this list, without a hole, from the item events |
| `StreamHeard.CallsHeard` | convert/stream.go:350-441 | the calls of that message: one for each index, in the order of their first fragments, a missing index counting as 0, each with all its arguments, the last name given and the last id given or the one made up for it |
| `StreamTheorems.StreamingRefines` | convert/stream.go:421-499 | the same over the signals the machine takes |
| `StreamHeard.CutAnyWay` | convert/stream.go:73-499 | however a message is cut into chunks in order, with tool fragments interleaved freely, and whether the stream ends with [DONE] or with a finish reason, it completes with the status and usage sent and the output of `ChatToResponses` on the whole message |
| `StreamIDs.IDsAnnounced` | convert/stream.go:395-410 | for every upstream and every writer: an announced item's id begins like its kind and holds the response's id, and no two announced items have the same id on the wire |
| `StreamIDs.SyntheticIDs` | convert/stream.go:434-436 | a made-up call id holds the response's id without its prefix and the call's index, and different calls get different ones |
| `StreamTheorems.ToolFaithfulIff` | convert/stream.go:350-466 | the deltas of a call add up to its final arguments and its announcement to its final identity if and only if its kind, name and id never changed once announced |
| `StreamTheorems.UnchangingIsStable` | convert/stream.go:371-393 | a call whose fragments repeat or omit its id and name meets that condition, however late the two arrive |
| `StreamTheorems.RenamedCallUnstable` | convert/stream.go:371-393 | a concrete call renamed after its announcement does not |
| `StreamTheorems.RenamedCallMisleads` | convert/stream.go:371-466 | a whole stream with that call completes, and the client was told something else than the item it ends with |
| `StreamRuns.FeedKeeps` | convert/stream.go:251-393 | what every delta keeps: the state agrees with the client's and with the history of signals, or the first out-of-order signal has refused the stream |
| `StreamCompletion.FinishCompletes` | convert/stream.go:421-499 | from any such state with all calls named, finish closes every item and sends the final response the client has rebuilt |
| `StreamCompletion.FinishRefuses` | convert/stream.go:429-432 | otherwise the first call without a name ends the stream with a failure |
| `StreamClient.AcceptedNumbering` | convert/stream.go:55-63 | what acceptance by the client means for numbering and opening |
| `StreamClient.AcceptedEndsOnce` | convert/stream.go:585-607 | what acceptance means for terminal events |
| `StreamSaved.SavesWhatItTook` | convert/stream.go:569-583 | for every upstream and every writer: a stream that returns its result, refused or with a failed write, returns the reasoning and text of the signals it took, all or all but the one at which it stopped, and the non-empty ids they gave, with those made up at the end for the calls closed first; one that was cancelled or broke off returns its usage alone |
| `StreamTurn.SavesWhatItSent` | convert/stream.go:569-583 | what a completed stream returns for the reasoning cache is the reassembled message: its reasoning, its text, and the ids of its calls, synthetic ones included |
| `StreamHeard.SavesWhatItHeard` | convert/stream.go:569-583 | read off the lines: a completed stream returns the last usage, the reasoning and text of its chunks and the ids of all its calls |
| `StreamTurn.StreamedTurnComesBack` | convert/request.go:288-468 | a client that replays the streamed output is parsed to the same messages as for a reply converted in one piece |
| `StreamTurn.StreamedTurnSurvives` | server/server.go:701-723 | the whole loop for a streamed turn: sent, saved, replayed and parsed again it is the reassembled text and calls, both carrying exactly the turn's reasoning, as long as the caches keep it |
| `Response.ChatToResponses` | convert/response.go:14-134 | read off the reply: incomplete if and only if the finish reason is length or content_filter, with its reason; the usage field by field; the ids from the upstream's without its prefix; the items: reasoning if there is any, a message with the same status holding text and refusal, and each tool call in order under its own name, namespace and kind with its arguments or its unwrapped input |
| `Response.OutputShows` | convert/response.go:35-116 | the output list of any reply in any tool context is so |
| `Response.IDsDiffer` | convert/response.go:198-212 | no two items of a reply have the same id on the wire |
| `Tools.UnwrapIs` | convert/request.go:519-530 | the input of a custom call is the text field input of its arguments when they are a JSON object with one, else the arguments as they are, and none when they are blank |
| `Tools.NormalizeIs` | convert/response.go:184-196 | a tool_search call's arguments are the JSON object or null they are, an empty object when blank, and otherwise their trimmed text as a query |
| `Input.ParseInput` | convert/request.go:288-301 | absent, text, list and undecodable input; with a cache as source the messages are those for the cache as it was at the start, though reads move and drop its entries as they go |
| `Input.ParseItems` | convert/request.go:303-468 | the loop over the items with its queues, awaiting set and message pointer, looking reasoning up in the cache object item by item, computes `InputSpec.Parsed` for what the cache shows at the start, and the cache still shows the same afterwards; the first item that cannot be converted decides the error |
| `Input.History.OnItem` | convert/request.go:353-465 | one turn of the loop: the state of the machine after the item, or why the conversion ends |
| `ReasoningSource.CallReasoning` | convert/request.go:533-538 | a lookup by call id finds what the source shows, moves or drops its entry, and changes nothing another lookup would find |
| `ReasoningSource.ContentReasoning` | convert/request.go:540-545 | the same by assistant text |
| `Input.CollectOutputIDs` | convert/request.go:303-308 | the non-empty call ids some output answers |
| `Input.History.AppendRegularMessage` | convert/request.go:331-338 | a message is held back while a call is awaiting its output, else queued media go out before it |
| `Input.History.FlushDeferredMessages` | convert/request.go:339-343 | media first, then the messages held back, which are then gone |
| `Input.ReplayedCall` | convert/request.go:359-384 | the Chat call a replayed call item stands for: flat name, id and arguments, by kind |
| `Input.History.OnCall` | convert/request.go:385-402 | adjacent calls join one assistant message, whose reasoning is the cached one or else the pending summary |
| `Input.History.OnOutput` | convert/request.go:407-427 | a result is emitted at once, its images are queued, and the last awaited one releases what was held back |
| `Input.History.OnRegular` | convert/request.go:435-461 | regular messages and the reasoning an assistant message takes |
| `Input.ResponsesPartsToChat` | convert/request_media.go:40-65 | the joined text, and the parts only when there is an image among them |
| `InputProofs.Conservation` | convert/request.go:303-468 | on success the calls with their grouping and the results, the regular messages and the extracted media parts each appear exactly as in the input, in input order, none lost or doubled |
| `InputProofs.EveryCallKept` | convert/request.go:359-405 | flattened, the tool calls are those of the input items, in order |
| `InputMessages.ResultsHold` | convert/request.go:404-419 | the tool messages are the results of the outputs, one each and in order: the item's call id and, without images, the text itself or the texts of all its parts one after the other; with images, the printed value without them or the notice; for a tool search, the JSON of the item with its optional fields |
| `InputMessages.MessagesHold` | convert/request.go:431-458 | the regular messages are those of the regular items, one each and in order: the item's role with developer turned into user, its text or the joined texts of its text entries, its parts when there is an image among them with link, file id and detail, and for the assistant the cached reasoning or else the summary replayed last and not used up since |
| `InputMessages.CallsAndMediaHold` | convert/request.go:343-402 | the calls of the converted history one after the other are those of the call items, each with its name behind its namespace, its id and its arguments by kind; the images of each output follow its label, as pictures of its image values in order |
| `InputMessages.MediaFollowsTraffic` | convert/request.go:316-342 | every message with images comes right after a call or a result, before any message that was held back |
| `InputProofs.FailsOnFirstBadItem` | convert/request.go:441-464 | conversion fails if and only if some item is unsupported or lacks its role, with the first one's error |
| `InputProofs.AfterHeld` | convert/request.go:345-468 | at every iteration nothing is held back unless a call is awaiting its output, and the three projections are conserved |
| `InputProofs.AwaitingIsAwaited` | convert/request.go:399-427 | the awaiting set is exactly the calls so far with an output somewhere and none since |
| `InputProofs.ToolAdjacency` | convert/request.go:328-343 | for every input: between a message calling c and the first result of c after it stand only assistant calls and tool results |
| `InputWindows.AnsweredRun` | convert/request.go:328-343 | a run of calls in the input that is answered before the next one: its message, with all its calls and its reasoning, is immediately followed by the results of the outputs up to the one that answers a call of the run, and by nothing else |
| `InputWindows.WindowExactly` | convert/request.go:303-343 | for every call and every output after it, empty ids included: between the two stand only calls and results if and only if no item in between lets a message out, which is read off the input items |
| `InputWindows.AwaitedShuts` | convert/request.go:399-427 | nothing is let out between a call with a non-empty id and its first output |
| `InputWindows.OnlyResults` | convert/request.go:407-427 | while a call is awaiting its output and no other call comes, the results are all that goes out |
| `InputWindows.EmptyCallIDUnguarded` | convert/request.go:303-308 | the one gap: an empty call id is never awaited, and a concrete input is converted with a message between such a call and its result, whatever the reasoning source |
| `InputProofs.NaiveWhenNothingBetween` | convert/request.go:310-468 | when no message or media sits inside a call/output window the result is the order-preserving one-pass conversion |
| `InputProofs.PendingIsTaken` | convert/request.go:385-398 | the summary a message takes is the last one before it with no taker in between |
| `InputProofs.SummaryTakenOnce` | convert/request.go:385-398 | each replayed summary goes to at most one message: no more messages of the converted history carry a text than reasoning items replay it and takers find it in the source |
| `InputProofs.CarriersBound` | convert/request.go:429-457 | the same after every item, a pending summary counting as not yet given away |
| `Media.StripToolImages` | convert/request_media.go:163-213 | the recursion through arrays, content fields and nested JSON text computes `Media.Strip` |
| `MediaPaths.EveryImageOnce` | convert/request_media.go:163-213 | the media list shows exactly the images reachable within depth 32, also inside nested JSON texts, each once, in traversal order, the count is its length, and a marker stands at each of their places afterwards |
| `MediaPaths.PathsComplete` | convert/request_media.go:163-213 | an image is found if and only if a path of at most the allowed depth leads to it |
| `ImageShapes.ImagesHaveShape` | convert/request_media.go:215-310 | which values are images, by their shapes: a base64 image data URL as text; input_image and image_url objects with a link or a file id; image objects with a source link, source data, or data of an image type; untyped objects with an image data URL as link; and what each becomes: link or data verbatim, file id, and detail |
| `ImageShapes.EveryShapeOnce` | convert/request_media.go:163-213 | the same results said of these shapes: every value of such a shape within the depth bound is moved, once and in order, its picture is in the media list, and the notice is left at its place |
| `Media.StripCounts` | convert/request_media.go:163-213 | the count is the number of images, and without images nothing changes |
| `Media.StripKeepsPlaces` | convert/request_media.go:163-213 | stripping commutes with walking down any path: nothing else is moved, dropped or reordered |
| `Media.ObjectKeepsFields` | convert/request_media.go:192-211 | an object keeps its keys and every field but content |
| `Media.StripIsIdempotent` | convert/request_media.go:163-213 | a second pass finds nothing and changes nothing |
| `Media.PlanIsFinal` | convert/request_media.go:104-148 | a plan moves at least one image, and planning its own output finds none |
| `Recorder.NextInv` | stats/stats.go:99-169 | every atomic step of producers, worker and Close keeps conservation, the bounds and the handshake |
| `Recorder.RecorderConservation` | stats/stats.go:99-169 | in every reachable interleaving: batches, then buffer, then channel are the accepted sends in FIFO order, each once; batches hold 1 to 64 records; the channel never exceeds its capacity |
| `Recorder.CloseFlushes` | stats/stats.go:113-122 | when Close has returned, every send accepted before it set the flag is in a batch; what is left in the channel are records of producers then past their check, in the order of their sends, at most one of each |
| `Recorder.DrainEnds` | stats/stats.go:148-164 | once the flag is set every step that is not idle uses up in-flight producers, channel, buffer or handshake; a later Close changes nothing |
| `Recorder.NeverStuck` | stats/stats.go:113-164 | until Close returns, some non-idle step is possible |
| `Recorder.DrainBounded` | stats/stats.go:148-164 | any run after the flag is set has at most that many non-idle steps |
| `Recorder.StrandedStays` | stats/stats.go:148-164 | once the worker has exited the batches never change and a record in the channel stays there |
| `Recorder.StrandedExactly` | stats/stats.go:149-152 | something is stranded if and only if a send was accepted after the worker, having found the channel empty, had exited |
| `Recorder.RaceIsRun` | stats/stats.go:99-109 | the race is real: its steps are a run |
| `Recorder.StrandedRecord` | stats/stats.go:149-152 | in every run that begins with the race the record stays in the channel and in no batch for ever |
| `RecorderWorker.RecorderObject.TrySend` | stats/stats.go:99-109 | the non-blocking send is that step of the system |
| `RecorderWorker.RecorderObject.TakeOne` | stats/stats.go:139-146 | taking a record, with a flush at 64 |
| `RecorderWorker.RecorderObject.Flush` | stats/stats.go:131-139 | a flush hands over the buffer as one batch and empties it; an empty buffer is no batch |
| `RecorderWorker.RecorderObject.SetClosedFlag` | stats/stats.go:113-121 | the first step of Close |
| `RecorderWorker.RecorderObject.LetSend` | stats/stats.go:99-109 | producers in flight try to send, one after the other |
| `RecorderWorker.RecorderObject.Drain` | stats/stats.go:148-164 | the drain loop, with any producers sending before each look at the channel, is that run of steps to the end |
| `RecorderWorker.DrainedFlushesAll` | stats/stats.go:148-164 | whoever sends meanwhile, a drain hands over everything accepted until it exits and leaves nothing behind |
| `Lru.Lru.Read` | reasoning/cache.go:115-129 | with map and list kept in step: the value and the new list are those of `LruSpec.Peek` and `LruSpec.Get` |
| `Lru.Lru.Write` | reasoning/cache.go:131-148 | with map and list kept in step: the new list is that of `LruSpec.Set`, the last entry dropped when one too many |
| `Lru.Lru.Remove` | reasoning/cache.go:150-153 | list and map lose the same entry |
| `Lru.Lru.ViewWellFormed` | reasoning/cache.go:89-113 | map and list in step mean a list without a key twice and within the capacity |
| `Lru.Cache.SaveCall` | reasoning/cache.go:49-54 | writes the call index only, empty inputs ignored |
| `Lru.Cache.SaveContent` | reasoning/cache.go:58-63 | writes the text index only, under the hash, empty inputs ignored |
| `Lru.Cache.ByCallID` | reasoning/cache.go:66-71 | reads the call index; the empty id finds nothing |
| `Lru.Cache.ByContent` | reasoning/cache.go:74-79 | reads the text index under the hash |
| `LruSpec.RunWellFormed` | reasoning/cache.go:89-153 | in every run: no key twice, never more entries than the capacity |
| `LruSpec.ReadsExactly` | reasoning/cache.go:115-148 | what any read returns after any run: the last value written, if its time to live has not passed and at no moment since had as many as the capacity of other keys been used more recently; nothing otherwise |
| `LruSpec.FewKeysKeep` | reasoning/cache.go:131-148 | in particular fewer than the capacity of other keys in use since the write cannot push a key out |
| `LruSpec.FullCacheForgets` | reasoning/cache.go:143-147 | that many used since its last use, and the key is gone |
| `LruSpec.ReadsAreOneSnapshot` | reasoning/cache.go:115-129 | any sequence of reads at one moment shows every key as it was before the first of them |
| `CrossTurn.SaveReasoning` | server/server.go:715-723 | saving a turn performs exactly one write per non-empty call id and one for its text, none without reasoning |
| `CrossTurn.ToolCallIDs` | server/server.go:725-737 | the non-empty call ids, in order |
| `CrossTurn.CacheShowsSnapshot` | reasoning/cache.go:66-79 | what the cache object shows to a conversion is the snapshot after the operations made on it |
| `CrossTurn.CallsCarryReasoning` | convert/request.go:385-398 | whichever saved call opens the replayed batch, its message carries exactly the turn's reasoning as long as the cache keeps the call and it has not expired, and the pending summary otherwise |
| `CrossTurn.TextCarriesReasoning` | convert/request.go:449-457 | the same for a replayed assistant text under its hash |
| `CrossTurn.BatchIsKept` | reasoning/cache.go:131-148 | every call of a saved turn is kept while the turn and everything since name fewer other ids than the capacity |
| `RoundTrip.ReplaysParse` | convert/request.go:358-468 | any replay of a reply, with whatever reasoning source, is parsed to its text and one message with all its calls |
| `CrossTurn.TurnComesBack` | server/server.go:715-723 | end to end: a reply converted, saved, replayed and parsed again is its text and one message with all its calls, both carrying exactly its reasoning |
| `Expand.ExpandTools` | convert/request.go:109-181 | the recursive walk yields the first candidate of each flat name with its context entry, and completes exactly when every schema can be prepared |
| `Expand.Expansion.Walk` | convert/request.go:125-174 | the walk under any prefix, from any state a previous walk left |
| `Expand.Expansion.Add` | convert/request.go:112-121 | a name already taken, or empty, is left alone |
| `Expand.EnsureObjectSchema` | convert/request.go:209-223 | an object schema keeps its fields and has a type; JSON null alone makes it panic |
| `Expand.FirstWins` | convert/request.go:109-181 | the emitted names are distinct, are exactly the keys of the context, and each tool and entry is that of the first declaration of its name, in declaration order |
| `ExpandDeclared.DeclaredToolsSent` | convert/request.go:109-223 | read off the declarations, by place in the nested namespaces: the tools sent are the first declared of each name, in order; a function keeps its description, strictness and every declared parameter field and gets a type only when it names none; a custom tool requires the one text input and its description tells the input format; tool_search keeps its declared schema or requires a query; and every entry leads back to its declaration |
| `Expand.ContextLeadsBack` | convert/request.go:202-207 | every emitted name is its entry's namespace and local name joined; tool_search entries have their fixed name and an execution |
| `Expand.CompletesUnlessNullSchema` | convert/request.go:209-223 | expansion completes if and only if no function, however deep, declares JSON null as its parameters; otherwise it writes to a nil map and panics |
| `Expand.NullSchemaPanics` | convert/request.go:131-141 | one such function is enough, at the top or anywhere in a namespace |
| `RoundTrip.CallComesBack` | convert/response.go:69-105 | for every flat name, declared or not: the replayed call has the same name, the same id (a tool_search call without one gets its item's) and the same arguments, canonical ones for custom and tool_search |
| `RoundTrip.CanonicalIsFixed` | convert/request.go:509-530 | canonical arguments are their own canonical form |
| `RoundTrip.UnchangedExactly` | convert/response.go:184-196 | which argument texts survive a cycle as they are, exactly |
| `RoundTrip.SecondCycleIsIdentity` | convert/response.go:169-196 | a call that came back once comes back the same ever after |
| `RoundTrip.ReplyComesBack` | convert/request.go:358-468 | a whole reply, converted and replayed item by item, is parsed to its text and one message with all its calls in order, with its reasoning on the first of them when nothing is cached |
| `Glob.GlobMatch` | config/config.go:169-186 | true if and only if texts can be put in for the stars so that the pieces give the string, and if and only if the pattern matches character by character |
| `Glob.LeftmostSuffices` | config/config.go:178-184 | taking the leftmost place of a piece never misses a match |
| `Glob.FilledIsMatch` | config/config.go:169-186 | the two readings of a pattern agree on every string |
| `Routing.Resolve` | config/config.go:138-155 | the first exact rule, else the first matching glob, else the catch-all |
| `Routing.OrderInvariance` | config/config.go:138-155 | the chosen rule is the same for any reordering that keeps the globs in their order, when no exact name and no catch-all is there twice |
| `Routing.ValidateConfig` | config/config.go:277-413 | accepts a configuration if and only if it satisfies the declarative rules for upstreams, routes and their rules |
| `Routing.CheckUpstream` | config/config.go:281-326 | one upstream's rules |
| `Routing.CheckSubscription` | config/config.go:415-438 | what a subscription upstream must look like |
| `Routing.CheckRules` | config/config.go:355-411 | the rules of a route: defined upstreams, supported protocol pairs, no exact name twice, at most one catch-all, subscriptions alone |
| `Routing.HandleRoute` | server/server.go:345-427 | for any configuration: no dispatch exactly when no rule fits or its upstream is not defined, else the rule, upstream, wire protocol, effective model, and forward or convert |
| `Routing.DispatchSafety` | server/server.go:358-427 | in every accepted configuration the chosen upstream is defined and fits; the only conversion is from Responses to a Chat upstream without a Responses endpoint; the endpoint used is the absolute path it names or its Chat path with the ending exchanged; subscription and compact routes only meet each other; the model sent is the rule's if it names one, even an empty one, else the upstream's |
| `Routing.ReorderedRoute` | config/config.go:391-400 | accepted routes meet the condition of order invariance |
| `SseReader.ReadSSELine` | server/sseforward.go:78-91 | the next line of the stream whatever the reads and the buffer, or the error for a line over the limit, or what is left with the stream's end |
| `SseReader.LineObserver.Read` | server/live.go:336-350 | passes the bytes through, and has shown exactly the complete lines of all bytes passed so far |
| `SseReader.LinesCut` | server/live.go:336-350 | lines do not depend on where the stream was cut |
| `SseForward.ForwardSSE` | server/sseforward.go:43-76 | the bytes written, the lines observed, the flags and the outcome are a function of the bytes of the stream, its end, and the cancellations and write failures of each round, whatever the sizes of the reads |
| `SseForward.WrittenIsPrefix` | server/sseforward.go:43-76 | what was written is a prefix of the upstream bytes, and all of them on a clean end |
| `SseForward.ForwardsLines` | server/sseforward.go:54-67 | lines are forwarded whole, in order, none over 1 MiB; a failed write leaves part of the line after them |
| `SseForward.CleanExactly` | server/sseforward.go:43-76 | undisturbed, a stream ends cleanly if and only if it ends and no line is over the limit |
| `SseForward.DisconnectClassed` | server/sseforward.go:127-132 | a disconnect is gone if a completion signal was in a line written before it, aborted if not |
| `SseForward.CompletedMeans` | server/sseforward.go:161-231 | the completion flag is set if and only if some line carried the protocol's completion signal, and the first-token flag if and only if some line carried output |
| `SseForward.OutcomeIs` | server/sseforward.go:43-76 | how it ends: an error of the stream is passed on unless it is the end or a cancellation; a cancelled request, a failed write and any error seen after a cancellation count as the client's leaving |
| `SseForward.UsageIsLast` | server/sseforward.go:161-206 | over a Chat or Responses stream the usage is the one reported last |
| `SseForward.UsageIsMerged` | server/sseforward.go:215-234 | over an Anthropic stream it is every usage reported, that of the message before that of the event, merged in order |
| `SseForward.Meter.Parse` | server/sseforward.go:161-231 | what one event does to usage, first-token flag and completion flag, by protocol |
| `SseForward.Meter.MergeUsage` | server/sseforward.go:236-261 | merging one Anthropic usage |
| `SseForward.MergedCounts` | server/sseforward.go:236-261 | over any sequence of usages each count is the last positive one reported and the total is input plus output |
| `Listing.Loader.List` | session/query.go:87-113 | a page from the cache or from a new scan is the page a fresh scan of the query's own window gives, and serving from the cache leaves it unchanged |
| `Listing.Loader.Scan` | session/query.go:130-171 | when the cache covers the window it is served, else replaced by a scan of the wanted stores |
| `Listing.FilterSessions` | session/query.go:177-207 | the sessions that meet every filter, in order |
| `Listing.PageHolds` | session/query.go:87-128 | a page is the listed sessions from the offset on, at most the limit, the total counts them all, and the sources are those of the stores read and asked for that have a description |
| `Listing.ListedSessions` | session/query.go:130-207 | the sessions listed are those of the stores read that meet the filters for tool, archive and time, and without text filters all of them |
| `Listing.EnrichSome` | session/query.go:92-103 | stopping early yields the first so many of the token-bearing sessions, but at least one |
| `Listing.WiderAnswers` | session/query.go:133-137 | readers that keep every session inside the window make a wider scan answer like a narrow one |
| `Listing.DisplayIsList` | session/query.go:76-113 | the early-stopping page is the full listing's page if and only if the offset is not negative, or one session at most is asked for, or there are too few sessions to stop |
| `Listing.NegativeOffsetStopsEarly` | session/query.go:98-100 | a concrete listing and query on which the two pages differ |
| `Listing.SortedIsSorted` | session/query.go:209-215 | the order is newest first and a permutation of the sessions |
| `Listing.SortIsStable` | session/query.go:209-215 | sessions of the same time keep their order |

## Left out

- Stream.StreamChatToResponses: the model and created_at fields of responses, the first-token time, and the cutting of the upstream into lines and JSON values (a line arrives decoded); item annotations and logprobs.
- Stream.StreamState.EmitEvent: a writer accepts whole events up to some point and fails from there on; how much of the failing event's frame reached the wire is not modelled.
- StreamTheorems.StreamingRefines: item ids are left out of the comparison, since the two conversions choose them differently, and the message item has the status known when a tool call closed it.
- JSON text: lexing and printing are a pair of functions with decode(encode(v)) == v where a result needs it; case-insensitive field names, duplicate keys, invalid UTF-8 and number formats are not modelled.
- Media.StripToolImages: values are not updated in place, so aliasing between the old and the new value is not captured.
- Input.History.AppendCall: the pointer to the message that takes more calls is the index of the last message.
- InputProofs.ToolAdjacency: speaks of non-empty call ids; `InputWindows.WindowExactly` covers the empty ones.
- Input.ParseItems: all lookups of one request are made at one moment; an entry that expires while a request is being converted is not modelled.
- Lru.Lru.Read: the mutex makes every operation one step; the linked list is a sequence of entry objects. A nil cache, which ignores everything, is not modelled.
- CrossTurn.TextCarriesReasoning: the hash is any function; a colliding later text counts as a later write of the same key.
- Recorder: SQL insertion and its errors, log lines and the real ticker; a batch counts as handed over when the insert is called. Concurrent first calls of Close, which sync.Once makes wait, are one call.
- Expand.ExpandTools: takes the declarations of the request and its history already put one after the other; the conversion of tool_choice joins the same names and changes no tool. The panic of a null schema is an absent result; recovery by the HTTP server is not modelled.
- Routing.ValidateConfig: says whether a configuration is accepted, not which of several faults is reported first or in what words; validateRuntimeConfig and the search settings are not part of this model.
- SseReader.ReadSSELine: the library's buffered reader is written out from its documented behaviour; a connection that returns neither bytes nor an error is excluded.
- SseForward.Meter.Parse: decoding a line to an event is a function given from outside, and the first-token time is a flag.
- Live counters, the registry and its snapshots: they feed a status page, and no forwarded byte, event or saved value depends on them.
- Listing.Loader.List: stores that change while the cache is fresh, the enrichment cache, and the readers themselves, which are assumed to keep every session inside the window in the same order and to name their source alike.
- HTTP plumbing, authentication, upstream transport, the SQL of the stores and statistics, tracing, search, the web interface and the command-line tools.
