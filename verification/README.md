# Token Saver: a verified model of its request rewriting, its state machines and its deployment

Token Saver is a plugin that makes provider requests smaller before they are sent. It must never
make a request worse: every stage either hands on exactly the bytes it was given or a body that
passed that stage's checks. This project models the parts of the program that carry that promise
and proves what they keep, over all inputs and all interleavings.

## What is modelled

**JSON by spans** (`JsonText`, `JsonTree`, `JsonEdit`, `JsonSplice`, `JsonQuery`, `JsonPaths`,
`JsonSlots`, `JsonAlike`, `JsonValue`, `JsonGrow`, `JsonBuild`). A document is a syntax tree that
keeps its white space and the spelling of every literal; its text is what it prints. A body stands
for at most one document. String literals are encoded and decoded as in section 7 of RFC 8259. The
program edits by byte span and never encodes a document again, so the base theorem is that splicing
literals into spans prints the updated tree. A path of names and indexes leads to its first full
match in the text, so it may go on to a later member of the same name.

**Tool-result slots and RTK** (`PayloadSlots`, `PayloadPlaces`, `Payloads`, `PayloadOrder`,
`PayloadWalks`, `Rewriting`, `Rtk`). The loops over the five payload shapes look every field up by a
path from the root; which texts are tool results is stated apart from them. `Rewrite` replaces some
of these texts, the RTK stage those that get shorter, and the pipeline's transition check accepts a
result only if nothing else changed. All of this holds for documents with repeated names too.

**The Headroom adapter** (`Projection`, `ProjectionProofs`, `ProjectionTargets`, `Headroom`,
`Conversations`, `ConversationProofs`, `ConversationExact`, `Speakers`). Each provider payload is
projected to chat messages with holes where text may change; a response is compared after masking
the holes on both sides; accepted texts are written back. What a payload says, message by message and
with the place of every text, is stated independently and proved to be what is sent.

**Prompt injection** (`Markers`, `Protocol`, `Prompts`, `EmptyBodies` and the modules whose names
start with `Prompt`). Two stages put a marked block into the first or the last instruction text, or
make a place for it.

**State machines** (`Breaker`, `Dedupe`, `DedupeCacheObject`, `DedupeRuns`, `DedupeKeys`,
`Lifecycle`, `ServiceObject`, `Metrics`, `MetricsObject`). Each has its state as a value with one
function per critical section, a class whose methods perform those sections in place and are
proved equal to the functions, and a system of callers in which any caller may take the next step.
A run is any sequence of steps that can happen.

**The pipeline** (`Pipeline`, `PipelineExact`, `PipelineRuns`, `ProviderShapes`,
`PipelineDefaults`, `PipelineShipped`). `Normalize` with stages, remote runner, validators, cache and
clock of any behaviour; then many such requests at once over the cache; then one request with the
stages the program ships.

**Line compressors** (`DedupLogs`, `GitDiffs`). Loops with several counters, proved to produce a
declared output, about which the accounts are then proved.

**The reconciler** (`Reconciler`, `ReconcilerObject`). One call is a trace of file-system states;
safety is proved of every state in the trace and of every sequence of calls of which each may be
killed at any state of its trace.

## Where the program does less than one might expect

These are proved, most with the exact condition.

- A probe of the half-open breaker is alone if every call lasts less than 60 s
  (`Breaker.HalfOpenExclusive`). Without that bound it may not be: an ordinary call that fails late
  clears the flag of a probe that is still out (`Breaker.LateFinishClearsFlag`), and then a second
  probe is let in (`Breaker.TwoProbesOut`). Exactly the runs in which no probe is let in beside
  another call are exclusive (`Breaker.ExclusiveExactly`).
- Where a list is there twice, slots may be listed against their order in the text
  (`PayloadOrder.FoundBackwards`). They are in order where each list that is walked is there once,
  whatever other names are repeated (`PayloadOrder.FoundInOrder`). Rewriting sorts, so it is right
  either way (`Payloads.RewriteIsPutAll`).
- A request for antigravity whose first `request` member is an empty object, while a later one has
  the contents and none has a system instruction, passes the shape check of the prompt stages, and
  what a stage then writes into the empty object is no JSON. Exactly there a stage does not keep
  JSON (`PromptEmpty.StageKeepsJson`, `PromptLaws.InjectKeepsJson`); `EmptyBodies.EmptyBodyBreaks`
  is a valid request of that kind. The pipeline's shape check turns the result down, at any size
  (`PipelineDefaults.DefaultPromptsContribute`).
- After `Runtime.Shutdown` returns no call is active, but every client has been closed if and only
  if no other `Shutdown` is still about to close one (`Lifecycle.AfterShutdown`); two concurrent
  shutdowns are the example (`Lifecycle.SecondShutdownReturnsEarly`).
- The two prompt stages commute if and only if the request is not one with at least two instruction
  arrays and no instruction text (`PromptOrder.StagesCommute`).
- The transition check rejects a rewriting that gives a slot its own text in another spelling, and
  only those (`Rtk.TransitionExact`). The RTK stage never asks for one (`Rtk.ApplyAccepted`).
- A request gets one outcome for each of the five stages if and only if every stage is off or the
  request is eligible (`Pipeline.OneOutcomeEach`), as long as no clock panics: then no cached work
  fails (`Pipeline.SteadyWork`, `PipelineRuns.RunsRecordOnce`). An ineligible request is recorded
  for the whole pipeline only.
- A failed smoke check on a first deployment leaves the new deployment active, since there is
  nothing to go back to (`Reconciler.CallExact`).
- In a log, the blank line that ends a run of duplicates is printed before the run's count
  (`DedupLogs.CountsStand`).

## Model

| member | source | states |
|---|---|---|
| JsonText.DecodeEncode | internal/protocol/payload.go:131-135 | Decoding what the encoder wrote gives the text back, for every string, and the encoder writes only legal literals. |
| JsonText.DecodeConcat | internal/prompt/inject.go:352-370 | A literal cut between two units decodes to the two decoded parts, unless the cut splits a surrogate pair. |
| JsonText.RawUnique | internal/protocol/payload.go:320-337 | A literal ends at its first closing quote, so the span of a string is determined by the text. |
| JsonTree.DocUnique | internal/protocol/payload.go:80-107 | A body is the text of at most one well-formed document, so reading it is a function. |
| JsonEdit.SpliceIsPutAll | internal/protocol/payload.go:155-163 | Splicing the printed values into their spans gives the text of the tree with those values replaced, for edits at disjoint places in text order; the spans come out in order. |
| JsonSplice.SplicedInAnyOrder | internal/protocol/payload.go:140-163 | For edits of separate strings in any order, sorting their spans and splicing gives the text of the tree with those strings replaced. |
| JsonPaths.FollowsApart | internal/protocol/payload.go:171-317 | Two paths that part at an index lead to separate places, along whichever of the repeated names each goes. |
| JsonEdit.PutAllWf | internal/protocol/payload.go:155-163 | Such edits keep the document well-formed. |
| JsonGrow.AddedText | internal/prompt/inject.go:372-407 | Adding an array item at either end, or a field at the end of a non-empty object, is one insertion beside a bracket, with the comma where one is needed. |
| JsonGrow.PutCommutes | internal/protocol/payload.go:140-163 | Replacements at places that are not inside each other give one result in either order. |
| PayloadSlots.TargetsAreSlots | internal/protocol/payload.go:166-337 | For every provider shape and every document the slots found are strings of the document, and none lies in another or is found twice. |
| PayloadPlaces.TargetsAreResults | internal/protocol/payload.go:166-337 | The texts found are exactly the tool results of the payload, provider by provider: each at its path, with the id of its call and whether it says that it is an error; they are listed item by item. |
| PayloadOrder.FoundInOrder | internal/protocol/payload.go:166-318 | If the path of each list that is walked leads to one place only, the slots are found in the order of the text; any other name may be repeated. |
| PayloadOrder.UniqueListsOnce | internal/protocol/payload.go:166-318 | That holds of every document without repeated names. |
| PayloadOrder.FoundBackwards | internal/protocol/payload.go:166-198 | With two `messages` lists, the first of which starts with an empty object, the slot of the later list is found first. |
| PayloadSlots.TargetsKept | internal/protocol/payload.go:166-337 | Documents that differ only in strings under the names `content`, `text`, `output`, `result`, `system` and `instructions` have the same slots to look up, with the same marks. |
| Payloads.RewriteIsPutAll | internal/protocol/payload.go:116-164 | Rewriting the bytes prints the tree with the replaced leaves, repeated names or not; the slots fit the body, so the overlap filter has nothing to drop. |
| Payloads.ViewOfRewritten | internal/protocol/payload.go:80-164 | The view of a rewritten body has the same slots in the same order with the same marks; the texts are the replacements where given and the old ones elsewhere. |
| PayloadWalks.PayloadView.Add | internal/protocol/payload.go:320-337 | Appends the slot of a string value, and nothing for any other value. |
| PayloadWalks.PayloadView.WalkChat | internal/protocol/payload.go:166-198 | Appends the slots of the tool messages in the order of the list, each field looked up by its path from the root. |
| PayloadWalks.PayloadView.WalkResponses | internal/protocol/payload.go:200-238 | Appends the slots of the tool outputs in the order of the list, each field looked up by its path from the root. |
| PayloadWalks.PayloadView.WalkClaude | internal/protocol/payload.go:240-279 | Appends the slots of the tool-result blocks in the order of the list, each field looked up by its path from the root. |
| PayloadWalks.PayloadView.WalkGemini | internal/protocol/payload.go:281-318 | Appends the slots of the function responses in the order of the list, each field looked up by its path from the root. |
| PayloadWalks.Walk | internal/protocol/payload.go:80-107 | The loops together find exactly the slots that the path lookups give, for every provider and document. |
| Rewriting.CollectEdits | internal/protocol/payload.go:125-136 | The edits are those of the in-range replacements, whatever order the map is walked in. |
| Rewriting.SortByStart | internal/protocol/payload.go:140 | Sorted by start, nothing lost and nothing added. |
| JsonSplice.SortedUnique | internal/protocol/payload.go:140 | Edits at different places have one sorted order, so the map's order does not matter. |
| Rewriting.KeepFitting | internal/protocol/payload.go:141-151 | On edits of slots the overlap filter keeps everything, and the length it adds up is the final one. |
| Rewriting.GrownIsLength | internal/protocol/payload.go:142-151 | The precomputed length is exactly the length of the result. |
| Rewriting.CopyEdits | internal/protocol/payload.go:155-163 | Copying gaps and literals in turn yields the splice, within the reserved capacity. |
| Rewriting.Rewrite | internal/protocol/payload.go:116-164 | The whole operation yields the rewritten body, and reserves exactly its length. |
| Rtk.TransitionSound | internal/saver/pipeline.go:552-576 | An accepted result is the input, or the same document but for string leaves at its slots. |
| Rtk.TransitionExact | internal/saver/pipeline.go:552-576 | A rewriting is accepted if and only if it respells no text it leaves unchanged. |
| Rtk.CompressChanges | internal/rtk/filter.go:39-94 | What the compressor returns is never its input, also for text that is itself a JSON object with an output string. |
| Rtk.ApplyAccepted | internal/rtk/filter.go:21-37 | Whatever the filters do, the result of the RTK stage passes the transition check. |
| Rtk.ApplyExact | internal/rtk/filter.go:21-94 | In the view of the stage's result an error result has its old text; any other text, or the output string in it, is what the filter made of it if that is of 500 bytes to 10 MiB and gets shorter but not empty, and the old text if not; marks and number stay. |
| Rtk.UnchangedBytes | internal/rtk/filter.go:18-37 | If no text changes, the very bytes of the request come back. |
| ProjectionProofs.LevelOrdered | internal/headroom/adapter.go:107-657 | The targets of a projection are strings at strictly increasing, disjoint places of the payload. |
| ProjectionProofs.LevelPut | internal/headroom/adapter.go:107-657 | Changing one target's literal changes that one text of the projection; the projection still succeeds and its other messages are equal. |
| Headroom.ProjectSound | internal/headroom/adapter.go:107-719 | A projection has one target per hole, in order, and no system or developer message has a hole. |
| ConversationExact.ProjectExact | internal/headroom/adapter.go:107-719 | A payload is projected if and only if it is readable, and the messages sent are exactly its conversation: chat messages as they are; of the other formats each system text, message, block or part with its role and text, each tool call with its id, name and arguments, each tool result with the id of its call, in order. The slots are the texts of that conversation that may change, each by its path, message and block. |
| Speakers.SpeakersOnPaths | internal/headroom/adapter.go:107-657 | The role under which a changeable text is sent is that of the message or content on the text's own path, a model being the assistant; a tool's result is sent as the reply to the call named on its path. |
| Headroom.ProjectPutAll | internal/headroom/adapter.go:107-657 | Projecting commutes with any set of target replacements, for all five shapes. |
| ProjectionTargets.TargetsMayChange | internal/headroom/adapter.go:107-719 | Every target lies in the content of a message that is no system or developer message, in a tool output, or in a part that is no text thought. |
| ProjectionTargets.ProtectedKept | internal/headroom/adapter.go:789-831 | Whatever texts come back, system and developer messages, system instructions, text thoughts and all members beside the messages stay as they are, spelling and white space included. |
| Headroom.ValidateExact | internal/headroom/adapter.go:721-787 | A response is accepted with some texts if and only if it is the projected messages with exactly these texts in the holes, no non-empty text becoming empty; the masking loses no difference. |
| Headroom.CompareMasked | internal/headroom/adapter.go:732-754 | The loop that reads and masks both sides target by target decides just that. |
| Headroom.CheckResponse | internal/headroom/adapter.go:721-754 | The same from the raw messages: a changed count or one message that does not decode is refused. |
| Headroom.RewriteTargets | internal/headroom/adapter.go:789-831 | A wrong number of texts changes nothing; otherwise the changed texts alone are written, and the flag says whether there were any. |
| Headroom.AppliedIsResponse | internal/headroom/adapter.go:31-92 | After an accepted response has been written back, the body parses and its projection is the response. |
| Markers.NoNewMarker | internal/prompt/inject.go:69-72 | Text put between two others adds no marker but those it brings along: none forms across a seam. |
| Markers.EncodedMarker | internal/prompt/inject.go:69-72 | A marker in an encoded text is a marker of the text itself. |
| PromptPaths.HolderIsLookup | internal/prompt/inject.go:110-121 | A field of an antigravity request is that of the first `request` member that has it, which is where the path of both names leads. |
| PromptPaths.PartsAreLookup | internal/prompt/inject.go:274-288 | So are the parts of its system instruction, by the path of all three names. |
| PromptEmpty.EmptyRequestBreaks | internal/prompt/inject.go:289-294 | Where a request of a supported shape starts with an empty `request` object and has no system instruction, appending any field with its comma to that object leaves no JSON. |
| PromptEmpty.StageKeepsJson | internal/prompt/inject.go:69-89 | On a body of a supported shape a stage yields JSON if and only if its marker is there already or the body is not of that kind. |
| PromptLaws.InjectKeepsJson | internal/prompt/inject.go:37-67 | Injecting into any JSON body yields JSON if and only if neither stage writes into a body of that kind. |
| EmptyBodies.EmptyBodyBreaks | internal/prompt/inject.go:398-407 | A valid request of at most 1200 bytes, which the injection of any prompt by either stage turns into no JSON. |
| Prompts.ReadySpot | internal/prompt/inject.go:91-295 | Every other request of a supported shape has a place for a block. |
| PromptSitesProofs.TextsFilled | internal/prompt/inject.go:297-340 | Replacing one instruction text leaves all instruction texts where they are, the others unchanged. |
| PromptLoops.TextBlockTargets | internal/prompt/inject.go:322-340 | The loop finds the text blocks of the required type, in order. |
| PromptLoops.MessageInstructionTargets | internal/prompt/inject.go:297-320 | The loop finds the instruction texts and the instruction arrays of system and developer messages, in order. |
| PromptLoops.InsertBytes | internal/prompt/inject.go:409-418 | One insertion at the position, or the body unchanged when there is no such position or nothing to insert. |
| PromptInsertion.MarkerCut | internal/prompt/inject.go:352-370 | Cutting a raw literal before a marker never splits an escape or a surrogate pair. |
| PromptInsertion.FilledText | internal/prompt/inject.go:352-370 | The decoded text becomes decoded prefix, inserted text, decoded suffix, and the literal stays legal. |
| PromptInsertion.StageInserts | internal/prompt/inject.go:226-418 | Every stage, for every provider, is one insertion into the body and yields a well-formed document. |
| PromptInsertion.StageOnBody | internal/prompt/inject.go:69-89 | A body that holds one of the stage's markers is left alone; any other becomes the stage's document. |
| PromptExact.InjectExact | internal/prompt/inject.go:37-89 | Injecting puts the Caveman prompt between its markers into the first instruction text, before a Ponytail marker there and a blank line, or else at its end after a blank line, and the Ponytail prompt likewise at the end of the last; all other instruction texts stay; without any, the block is the only one. A stage whose marker is there does nothing. |
| PromptPlaces.TextsArePlaces | internal/prompt/inject.go:226-340 | The texts a stage looks at are exactly the instruction texts of the payload, by role and type, for each provider. |
| PromptPlaces.TextsInOrder | internal/prompt/inject.go:238-340 | They are listed in text order, the instructions field first. |
| ProviderShapes.SupportedExact | internal/prompt/inject.go:91-224 | Which of the pipeline's valid requests have a shape that takes a prompt. |
| PromptSpots.NewSpot | internal/prompt/inject.go:226-295 | A supported request without instruction text gets exactly one, which holds the block. |
| PromptMarkers.StageMarkers | internal/prompt/inject.go:69-89 | A stage brings its own marker, keeps every marker of the body and makes no other one, not even across the seams of the insertion. |
| PromptLaws.FilledTexts | internal/prompt/inject.go:342-370 | With instruction texts present a stage extends the first or the last and leaves all others. |
| PromptLaws.InjectIdempotent | internal/prompt/inject.go:37-72 | Injecting the same levels a second time changes nothing, for every body, route and prompt. |
| PromptOrder.LiteralCommutes | internal/prompt/inject.go:352-370 | In one literal without a Ponytail marker both orders give the same bytes: the old text, the Caveman block, the Ponytail block. |
| PromptOrder.StagesCommute | internal/prompt/inject.go:37-89 | On supported bodies without markers the stages commute byte for byte if and only if the request does not have two or more instruction arrays and no instruction text. |
| PromptBlocks.BlocksInOrder | internal/prompt/inject.go:37-67 | After both stages have run on a tree, the Caveman block is in the first instruction text before any Ponytail block there, and a Ponytail block ends the last; in a single text Caveman stands before Ponytail. |
| PromptBlocks.InjectInOrder | internal/prompt/inject.go:37-67 | The bytes that injecting both prompts into a body without markers returns are a document in which the blocks stand so, unless its first `request` member is empty; then they are no JSON. |
| PromptShape.StageKeepsShape | internal/prompt/inject.go:226-295 | A stage keeps the shape that the pipeline asks of the provider's requests, wherever it puts its block. |
| Breaker.CircuitBreaker.State | internal/headroom/client.go:431-441 | The phase: closed without a deadline, half-open with a probe out or the deadline reached, open otherwise. |
| Breaker.CircuitBreaker.Begin | internal/headroom/client.go:443-454 | The new state and the grant; denied while open or while a probe is out, a probe when half-open. |
| Breaker.CircuitBreaker.Cancel | internal/headroom/client.go:456-463 | Only a probe's cancellation changes anything: its flag. |
| Breaker.CircuitBreaker.Finish | internal/headroom/client.go:465-496 | The new state after a probe or an ordinary call that succeeded or failed. |
| Breaker.CircuitBreaker.Compact | internal/headroom/client.go:483-490 | Compacting in place keeps exactly the failures in the window, in order. |
| Breaker.HalfOpenExclusive | internal/headroom/client.go:217-233 | In every interleaving of calls shorter than 60 s no other call is out while a probe is, the flag is up exactly then, and a closed circuit has a streak below 3, fewer than 5 failures and no probe. |
| Breaker.BeginExact | internal/headroom/client.go:443-454 | Who is let in, by the history of finished calls: all while it is not open, one probe once its time is over, nobody before or beside the probe. |
| Breaker.KeptExact | internal/headroom/client.go:483-490 | The failures kept are all those from the cutoff on, in order. |
| Breaker.ExclusiveExactly | internal/headroom/client.go:443-496 | With calls of any length, a run is exclusive throughout if and only if no probe is let in while another call is out. |
| Breaker.LateFinishClearsFlag | internal/headroom/client.go:492-495 | There is a run whose flag is up and which a late ordinary failure turns into one with a probe out and the flag down. |
| Breaker.TwoProbesOut | internal/headroom/client.go:443-454 | There is a run in which two probes are out at once. |
| Breaker.RefinesHistory | internal/headroom/client.go:465-496 | In every run, late calls included: the failures kept are those since the last successful probe within 60 s of the latest one, the counter is the current failing streak, and the deadline is 60 s after the last event that opened the circuit. |
| Dedupe.BudgetedExact | internal/saver/dedupe.go:122-130 | Enforcing the byte budget removes the shortest prefix of completed entries, by sequence, that is enough. |
| Dedupe.RoomedOne | internal/saver/dedupe.go:112-120 | Making room evicts at most one entry, the oldest completed one; if none goes, there was room or all entries are in flight. |
| Dedupe.EnterKeeps | internal/saver/dedupe.go:55-73 | The first critical section keeps the bounds and the exact total; it joins an unexpired entry, opens a new ticket, or bypasses. |
| Dedupe.EnterExact | internal/saver/dedupe.go:55-73 | A caller joins the entry of its key exactly if that is in flight or under five seconds old; else it gets a ticket and an entry, for which at most the oldest completed one goes, unless 64 others are in flight. |
| Dedupe.EnterInFlight | internal/saver/dedupe.go:104-143 | No entry in flight is expired or evicted by an arriving call. |
| Dedupe.LeaveKeeps | internal/saver/dedupe.go:78-90 | The second critical section keeps the bounds and stores the value only under its own ticket. |
| Dedupe.LeaveExact | internal/saver/dedupe.go:78-90 | A result of up to 1 MiB is stored for five seconds, evicting only what the byte budget asks for; a failure or a larger result leaves no entry. |
| Dedupe.LeaveEntry | internal/saver/dedupe.go:78-90 | A finishing call changes no other entry and evicts none in flight. |
| DedupeCacheObject.DedupeCache.RemoveLocked | internal/saver/dedupe.go:145-156 | The entry goes, and the running total stays the sum of the stored values without the clamp at zero. |
| DedupeCacheObject.DedupeCache.ExpireLocked | internal/saver/dedupe.go:104-110 | Exactly the expired completed entries go, in whatever order the map is walked. |
| DedupeCacheObject.DedupeCache.OldestCompletedLocked | internal/saver/dedupe.go:132-143 | The completed entry with the least sequence number, or none if all are in flight. |
| DedupeCacheObject.DedupeCache.MakeRoomLocked | internal/saver/dedupe.go:112-120 | The loop leaves the roomed entries and an exact total. |
| DedupeCacheObject.DedupeCache.EnforceByteBudgetLocked | internal/saver/dedupe.go:122-130 | The loop leaves the budgeted entries and an exact total. |
| DedupeCacheObject.DedupeCache.EnterLocked | internal/saver/dedupe.go:55-73 | The class performs the first critical section. |
| DedupeCacheObject.DedupeCache.LeaveLocked | internal/saver/dedupe.go:78-90 | The class performs the second critical section. |
| DedupeRuns.AgreesWithDirectWork | internal/saver/dedupe.go:46-102 | In every run: at most 64 entries and 8 MiB; one cached execution per key at a time; every result is the outcome of one execution for that key; a hit is under 5 s old. |
| DedupeRuns.WorkerFindsEntry | internal/saver/dedupe.go:75-90 | A finishing worker always finds its own entry still in flight. |
| DedupeRuns.WokenWithOwnersOutcome | internal/saver/dedupe.go:57-62 | A waiter is woken with the outcome of the worker it waited for. |
| DedupeKeys.EncodedUnique | internal/saver/dedupe.go:158-186 | The text that is hashed determines the generation and every field of the request. |
| DedupeKeys.Stream.WriteField | internal/saver/dedupe.go:181-186 | Writes the length in eight bytes and then the value. |
| DedupeKeys.Key | internal/saver/dedupe.go:158-175 | The writes in turn produce that encoding. |
| Lifecycle.ClosedOnceAndUnheld | internal/saver/pipeline.go:363-399 | In every run each generation's client is closed at most once, never while held; a retired generation that nobody holds is closed or about to be. |
| Lifecycle.AcquiredIsOpen | internal/saver/pipeline.go:363-377 | What a call acquires is the newest generation, neither retired nor closed. |
| Lifecycle.PublishReplaces | internal/saver/pipeline.go:160-180 | Publishing adds one open generation with the client that was built and retires all others, which stay held as they were. |
| Lifecycle.GuardsAreDead | internal/saver/pipeline.go:334-391 | The guards against underflow, and the branch that drops a client built for a closed service, are never needed under a runtime. |
| Lifecycle.AfterShutdown | internal/abi/envelope.go:150-167 | After a shutdown returns no call is active and every generation is retired and unheld; all clients have been closed exactly once if and only if no other shutdown is still closing one. |
| Lifecycle.SecondShutdownReturnsEarly | internal/abi/envelope.go:150-167 | A run in which the second of two shutdowns returns before the client is closed. |
| ServiceObject.Generation.ClosableLocked | internal/saver/pipeline.go:393-399 | Hands out the closer of a retired idle generation, and only the first time. |
| ServiceObject.Service.Reconfigure | internal/saver/pipeline.go:132-180 | A failed call changes nothing and closes what was built; a successful one publishes one new generation and retires the old. |
| ServiceObject.Service.Acquire | internal/saver/pipeline.go:363-377 | The current generation, counted as held, or nothing once closed. |
| ServiceObject.Service.Release | internal/saver/pipeline.go:334-344 | One holder less, and the closer if this was the last of a retired generation. |
| ServiceObject.Service.Close | internal/saver/pipeline.go:347-361 | The service is closed and its current generation retired. |
| ServiceObject.Runtime.Acquire | internal/abi/envelope.go:191-202 | A call is counted unless shutdown has begun. |
| ServiceObject.Runtime.Release | internal/abi/envelope.go:204-211 | A call less; waiters are woken at zero. |
| ServiceObject.Runtime.Stop | internal/abi/envelope.go:156-163 | Shutdown blocks new calls and need not wait if none is active. |
| Metrics.Conserved | internal/metrics/metrics.go:125-262 | In every run each global outcome counter is the sum over the routes plus what paired recordings still owe; at most 64 routes; fail-open covers timeout and saturation; in-flight counts equal the open calls, with zero counts only for the current and previous generation. |
| Metrics.TotalsExact | internal/metrics/metrics.go:125-159 | In every run a counter of a stage is the number of reports made for it; a timeout or saturation also counts as fail-open, an unknown report as a failed pipeline. |
| Metrics.RoutesExact | internal/metrics/metrics.go:185-222 | So is a counter of a route, but for reports still to be counted there. |
| Metrics.FormatsExact | internal/metrics/metrics.go:355-366 | The seven known formats are kept apart and all other names are one. |
| Metrics.EndIsCounted | internal/metrics/metrics.go:251-260 | A call that ends was counted, so the guard against underflow is never used. |
| Metrics.FewRoutes | internal/metrics/metrics.go:355-366 | Any route table has at most 64 routes. |
| MetricsObject.MetricsRegistry.Record | internal/metrics/metrics.go:125-159 | One outcome more for the stage; an unknown stage or outcome counts as a failed pipeline. |
| MetricsObject.MetricsRegistry.RecordAllBypassed | internal/metrics/metrics.go:162-181 | One bypass more for each of the five stages. |
| MetricsObject.MetricsRegistry.RecordRoute | internal/metrics/metrics.go:185-200 | The same on the route's own counters. |
| MetricsObject.MetricsRegistry.RecordAllBypassedRoute | internal/metrics/metrics.go:204-222 | Five bypasses on the route's own counters. |
| MetricsObject.MetricsRegistry.PublishGeneration | internal/metrics/metrics.go:225-239 | Current and previous move on, and a stale zero count goes. |
| MetricsObject.MetricsRegistry.Begin | internal/metrics/metrics.go:242-249 | One open call more for the generation. |
| MetricsObject.MetricsRegistry.End | internal/metrics/metrics.go:251-261 | One less, and a stale zero count goes. |
| Pipeline.Normalize | internal/saver/pipeline.go:183-244 | The body and the recorded outcomes, for stages, runner, checks and clock of any behaviour. |
| Pipeline.NormalizeSafe | internal/saver/pipeline.go:183-244 | The result is the request itself or a body of valid shape that the final check took, reached through the four stages in order, each of which may change the body only if it is on and only to an output its checks accept; a hit, which may be any body here, stands for the first two only where the cache is used. An ineligible request is returned as it is. |
| Pipeline.SteadyWork | internal/saver/pipeline.go:209-214 | If the clock does not panic the cached work cannot fail, and reports one outcome for RTK and one for Headroom, whatever the stages do. |
| Pipeline.OneOutcomeEach | internal/saver/pipeline.go:183-244 | If neither this request's clock nor that of the request it waited for panics: one outcome for each of the five stages if and only if all stages are off or the request is eligible. |
| PipelineExact.NormalizeExact | internal/saver/pipeline.go:183-244 | With a clock that does not panic: each stage hands on its output if it is on, gave one and had it accepted, and its input otherwise, and its report says which; the answer is the end of the four stages if that has valid shape and passes the final check, and the request otherwise; a request that is not eligible comes back. |
| PipelineExact.EndsOnce | internal/saver/pipeline.go:401-456 | That determines the body after each stage and every report. |
| PipelineRuns.EqualRequestsShare | internal/saver/pipeline.go:198-226 | In every interleaving of requests over the cache, the body a request takes from it is what RTK and Headroom made of an equal body, for an equal request of the same generation. |
| PipelineRuns.RunsNormalize | internal/saver/pipeline.go:183-244 | So in every interleaving a request comes back as itself, or as a valid body at the end of its own four stages, all on its own bytes. |
| PipelineRuns.RunsExact | internal/saver/pipeline.go:183-244 | If no clock panics it comes back as exactly what its own prompt stages make of the work that it or an equal request did on the same bytes, if that can be sent. |
| PipelineRuns.RunsRecordOnce | internal/saver/pipeline.go:183-244 | In every interleaving in which no clock panics no cached work fails, and each request that used the cache gets one outcome for each stage. |
| PipelineDefaults.RtkKeepsShape | internal/saver/pipeline.go:578-647 | Whatever the filters do, the RTK stage keeps a valid provider request valid, but for its size. |
| PipelineDefaults.InjectKeepsShape | internal/saver/pipeline.go:578-647 | Injecting either prompt or both keeps a valid request valid, but for its size, if and only if no stage writes into an empty first `request` member. |
| PipelineDefaults.DefaultRtkContributes | internal/saver/pipeline.go:458-479 | On a valid request the shipped RTK stage is turned down exactly when its output is over 10 MiB. |
| PipelineDefaults.DefaultPromptsContribute | internal/saver/pipeline.go:458-479 | On a valid request a shipped prompt stage is turned down exactly when its output is over 10 MiB or it writes into an empty first `request` member; otherwise it contributes its injection. |
| PipelineShipped.ShippedExact | internal/saver/pipeline.go:183-244 | With the shipped stages a valid request comes back with RTK's output, Headroom's valid answer and both prompts put in, one after the other; each is left out only if its stage is off or its result cannot be sent. |
| PipelineDefaults.InjectableIsValid | internal/saver/pipeline.go:578-647 | What the prompt stages take is a valid provider request, but for its size. |
| PipelineDefaults.NormalizedIsValid | internal/saver/pipeline.go:183-244 | With the shipped checks the answer is the request itself or a valid request of its provider, and an invalid request comes back unchanged. |
| DedupLogs.DedupLog | internal/rtk/filters/system.go:28-63 | The output is the declared one for the lines read; it is cut at the first line that fills it and has at most 2003 lines. |
| DedupLogs.CountsAddUp | internal/rtk/filters/system.go:28-63 | The output with the counted copies put back holds exactly the non-blank lines read; its kept lines are a selection of them that cannot be squeezed further; uncut, kept lines and counts add up. |
| DedupLogs.KeptAreSqueezed | internal/rtk/filters/system.go:39-54 | Side by side no two kept lines are equal and no two are blank. |
| DedupLogs.KeptExact | internal/rtk/filters/system.go:39-54 | The lines kept are exactly those that repeat neither the line before them nor a blank one. |
| DedupLogs.CountsStand | internal/rtk/filters/system.go:33-62 | A count stands after the line it counts, or after the blank line that ended its run. |
| GitDiffs.GitDiff | internal/rtk/filters/git.go:28-94 | The output is the declared one for the lines read: of every hunk the first 100 lines worth showing and the number of changed lines beyond, of every file its counts; it is cut at the first line that fills it and has at most 504 lines. |
| GitDiffs.OutputTells | internal/rtk/filters/git.go:28-94 | Shown changed lines and skipped counts are together the changed lines read; every file is printed with its exact +N -M; no hunk shows over 100 lines; the footer stands exactly if the output is cut or shows fewer changed lines than were read. |
| GitDiffs.FilesCoverChanges | internal/rtk/filters/git.go:55-80 | The counts of all files are all changed lines but those of hunks before any file header. |
| GitDiffs.HunkExact | internal/rtk/filters/git.go:66-85 | Of a hunk the output has the header and the first 100 of its lines from the first change on, without remarks on a missing end of line. |
| Reconciler.NameTellsGeneration | deploy/vps-reconciler.py:310 | A deployment's name determines its generation, so a directory of that name is never a newer deployment. |
| Reconciler.CallSafe | deploy/vps-reconciler.py:283-399 | In every state during a call both links name complete deployments; by outcome: a refused call or a failed download changes nothing, a roll-back has the initial target active again if there was one, and a deployment leaves the new one active and the old one previous. |
| Reconciler.CallExact | deploy/vps-reconciler.py:283-399 | The outcome by what was active, the manifest and the world: up to date exactly with the active fingerprint; rejected exactly if invalid, or not newer with another one; otherwise a failed download changes nothing, a failed smoke check has the old target active and the new one staged, or the new one active from an empty root, and a passed one the new one active and the old one previous. |
| Reconciler.DeployedCleans | deploy/vps-reconciler.py:394-418 | After a deployment with whole removals the directories are the new one and the old ones without those beyond the newest few that were not active. |
| Reconciler.NeverLower | deploy/vps-reconciler.py:283-399 | The active generation after a call is never lower than before it, however the call ends. |
| Reconciler.NeverLowerBetween | deploy/vps-reconciler.py:283-399 | Nor is it lower in any state during the call. |
| Reconciler.CleanExact | deploy/vps-reconciler.py:401-418 | If removals succeed, exactly the unprotected deployments beyond the newest few go. |
| Reconciler.CleanBound | deploy/vps-reconciler.py:401-418 | Then at most as many others as configured stay beside the protected ones. |
| Reconciler.RunsSafe | deploy/vps-reconciler.py:279-399 | From an empty root, after any sequence of calls each of which may be killed at any state, the links are safe and the active generation is at least what it was after any earlier call. |
| ReconcilerObject.Reconcile | deploy/vps-reconciler.py:283-399 | The call takes the file system through exactly the states of its trace. |
| ReconcilerObject.FileSystem.Cleanup | deploy/vps-reconciler.py:401-418 | The counting loop takes it through exactly the states of the cleaning trace. |

## Left out

- Text is a sequence of code points, and spans count code points; bodies that are not valid UTF-8 are outside the model.
- gjson and encoding/json: a body is the text of a tree or it is not; their parsers, their depth limits and their error messages are not modelled. An escaped lone surrogate decodes to one replacement character and what follows is read by itself, as encoding/json does; gjson reads a following `\u` escape as part of the pair, so on such texts it decodes otherwise. Where a literal is cut is the same for both.
- A truth value read from a number is by its digits; numbers that underflow to zero in floating point are not.
- SHA-256 is taken as injective; the hashed text is modelled and the hash is not.
- The sequence number of the cache and the metric counters are unbounded; their wrap at 64 bits is not modelled. Byte and duration counters are left out.
- Encoding a tool call's arguments is a parameter of the projection.
- HTTP transport, dialling, URL parsing and error classification; a call of the client begins, takes or misses the slot, finishes with success or failure at some time, and releases.
- Outcomes and status snapshots of the Headroom client and the adapter, apart from what `Normalize` records.
- The prompts are any texts; the commutation theorem asks that they and the body hold no marker.
- A clock that panics while the cache itself reads it, which leaves the cache locked; every other reading of the clock while a request is normalized may panic in the model.
- Pipeline.OneOutcomeEach: does not say which outcomes a request gets whose clock, or whose worker's clock, panics.
- The choice of a filter by regular expressions and the filters other than the log and the diff compressor; a filter is any partial function on texts.
- Joining the entries of a compressed log or diff to text.
- DedupLogs.DedupLog: says nothing about lines after the cut, which the program does not read.
- Prompt injection and the projections work on parsed trees; the copying of bytes is modelled in `PromptLoops.InsertBytes` and in `Rewriting` and `Headroom.RewriteTargets`.
- Pipeline.NormalizeSafe: a hit of the cache may be any bytes; what they are in a run is stated by `PipelineRuns`.
- PayloadOrder.FoundInOrder: says nothing of documents in which a list is there twice; their slots may or may not be in order.
- When both prompts are injected at once and the first has left no JSON (`PromptEmpty.StageKeepsJson`), what the second does to that text depends on how gjson reads it; the model leaves the text as it is. The pipeline injects one prompt at a time. `PromptOrder.StagesCommute` therefore speaks of the other bodies.
- The copies the cache hands out and takes in are values, so aliasing between callers is not modelled.
- The reconciler's downloads, unpacking and permissions are one step that succeeds or fails before anything is moved; the order of directories by time is given; replacing a link is atomic, and the fallback for a failing replacement is not modelled, nor are exceptions of the service runner, a failing removal of an old directory of the same name, or manifests without a whole number as generation.
- cgo exports and native buffers, management handlers, configuration parsing and the build and release tools.
