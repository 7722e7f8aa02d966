# Fluent Bit: a verified model

This project models the core of Fluent Bit, a log forwarder, in Dafny and proves what its
parts promise. Inputs collect records, filters change them, a router sends them to outputs,
the engine runs an output thread for every route of every task and retries failed ones
through a scheduler, and a buffer worker keeps undelivered chunks on disk. Records are
MessagePack; JSON comes in through the jsmn tokenizer and goes out through a printer.

Code that changes things in place is a class with methods and loops; each method is proved
against a function on values, and the theorems are about those functions. Addresses of C
objects are numbers that are never given out twice. Strings are their characters before the
terminator.

| file | what it models |
|---|---|
| `Jsmn`, `JsmnProperties` | the strict jsmn tokenizer with parent links, restarts, and its tokens as a forest |
| `JsonValue`, `JsonPack`, `JsonPrint`, `JsonRoundTrip` | JSON text to MessagePack, MessagePack to JSON text, and both ways |
| `Decimal` | decimal printing two digits at a time, and reading digits |
| `HttpChunked`, `HttpResponse` | the decoder of chunked HTTP bodies on values, and in place on the response buffer |
| `Bits`, `TaskWord` | bitwise operators and the event word of an output thread |
| `Scheduler`, `Backoff` | retry requests, timers and frames; the random wait before a retry |
| `TaskModel`, `TaskInv`, `TaskSteps` | tasks, threads, retries and slots, the steps of the engine, and what every step keeps |
| `TaskRuns`, `TaskLife`, `TaskEnds`, `TaskRoutes`, `TaskScope`, `TaskTiming` | whole runs of the engine: words and retries, the work of a task, its end, its routes, configurations in which nothing dangles, and when retries fire |
| `Engine` | the engine as an object updated in place |
| `Router` | wildcard matching of tags |
| `Utf8` | the UTF-8 automaton |
| `ChunkName`, `ChunkDisk`, `BufferWorker` | names of buffer chunks, the directory protocol over every interleaving, and the worker |
| `Input`, `InputCtx` | per-tag input buffers, filters, flushes and backpressure |
| `Chars`, `Wrappers`, `Seqs`, `Folding` | character classes, `Option`, concatenation, and folded facts |

Where the code does not do what one would expect of it, the model follows the code:

* A request parked in the wait list is not invalidated when its task is destroyed.
  `TaskRuns.DanglingExactly` says exactly when a request outlives its task, and
  `TaskScope.TwoRoutesCanDangle` gives such a run, with waits that the backoff chooses: the
  second failure of one output is parked while the other output succeeds. With one route per task
  (`OneRouteNeverDangles`) or a retry limit of 0 (`OnceNeverDangles`) it never does, and then
  every step the environment can take is safe (`OneRouteNeverFaults`, `OnceNeverFaults`).
* A task created directly with no route is never destroyed (`TaskEnds.NoRouteNeverEnds`).
* The JSON tokenizer leaves a bare number, boolean or null unfinished
  (`JsonRoundTrip.BareLeafIsPartial`), and integers saturate at 64 bits, so printing then
  packing preserves a value if and only if neither applies (`PrintThenPack`).
* The size line that ends a chunked body is any line that reads as 0, and it is accepted if
  and only if it has one or three characters: `0;a` is, `0;ab` is not (`HttpChunked.ZeroLine`).
* There is no check for a negative chunk size. The test for the end of the chunk then looks back:
  a line that reads as -2 finds its own CRLF, and one that reaches back before the line may find
  a CRLF there, as -6 does right after the headers (`HttpChunked.SkewedExactly`). What happens
  then depends on how many bytes came in the same read (`SkewedDepends`, `MinusTwo`,
  `MinusSix`). The outcome is the same for all reads if and only if decoding meets no such size
  and none that looks before the response or does not fit (`HttpChunked.SourceIsOneShotExactly`).
* If the headers end a read, the response is OK at once and the body is not read
  (`HttpChunked.BodyExactly`).
* The printer fails if a string that is not empty starts half way through the room, even if the
  text fits (`JsonPrint.Output.Msgpack2Json`, `JsonPrint.RefusedExactly`): a text printed in 11
  bytes is refused in 12 (`JsonPrint.FitsButRefused`).
* A chunk whose routes have more than eight decimal digits cannot be read back from its name:
  it is never deleted and never found by a scan (`ChunkName.NameRoundTrip`,
  `ChunkDisk.GoneOnceDelivered`).
* The frame of the scheduler is 10 seconds (include/fluent-bit/flb_scheduler.h:31); the comment
  on its lists (line 74) speaks of 60. A parked request fires at its time if and only if the
  frame tick that promotes it does not come later (`Scheduler.ExactlyIfPromotedInTime`);
  `Scheduler.LateWithoutFrames` is a run in which one is 11 seconds late.
* The product in the backoff fits an int for at most 28 attempts (`Backoff.ProductFits`).

## Model

| member | source | states |
|---|---|---|
| `Jsmn.JsmnParser.constructor` | lib/jsmn/jsmn.c:309-313 | a fresh parser is the initial one |
| `Jsmn.JsmnParser.ParsePrimitive` | lib/jsmn/jsmn.c:35-79 | scans to the delimiter; on too few characters, a bad character or no room nothing changes, otherwise exactly one primitive token is added under the current parent |
| `Jsmn.JsmnParser.ParseString` | lib/jsmn/jsmn.c:84-146 | the same for strings with escapes |
| `Jsmn.JsmnParser.Parse` | lib/jsmn/jsmn.c:151-303 | refines the step-by-step tokenizer `Run` on parser, tokens and result, for every input and every token array |
| `Jsmn.StepKeepsLinks` | lib/jsmn/jsmn.c:158-302 | parents stay below their children, the position advances and tokens are never lost, so the parent walk ends in range |
| `JsmnProperties.Resume` | lib/jsmn/jsmn.c:151-303 | a call on any prefix with any smaller token array, whatever it returned, changes nothing for the next call |
| `JsmnProperties.InvalidPrefix` | lib/jsmn/jsmn.c:35-79 | invalid on a prefix is invalid on the whole |
| `JsmnProperties.MoreRoom` | lib/jsmn/jsmn.c:6-19 | a larger token array does not change a call that had enough |
| `JsmnProperties.NeverOutOfTokens` | lib/jsmn/jsmn.c:6-19 | one token per character is always enough |
| `JsmnProperties.OutOfTokens` | lib/jsmn/jsmn.c:6-19 | running out means every token is in use and fewer than the characters |
| `JsmnProperties.EarlierCallsDoNotMatter` | src/flb_pack.c:35-56 | after any schedule of calls on prefixes the next call is a first call |
| `JsmnProperties.IncrementalIsOneShot` | src/flb_pack.c:35-56 | tokenizing in any growing prefixes with any growing token arrays ends with the parser, tokens and result of one fresh call with enough tokens |
| `JsmnProperties.RunKeepsForest` | lib/jsmn/jsmn.c:158-302 | after a call on any input, valid or not, parents precede children, starts increase, and every size is the number of children |
| `JsmnProperties.CallsLeaveAForest` | lib/jsmn/jsmn.c:158-302 | so they do after any schedule of calls |
| `JsonPack.CountIsAll` | lib/jsmn/jsmn.c:293-302 | a successful call returns the number of tokens in use |
| `JsonPack.IsFloat` | src/flb_pack.c:72-84 | a dot in the token or the character after it |
| `JsonPack.TokensArePackable` | src/flb_pack.c:87-166 | every token the tokenizer leaves lies inside the text, so reading it is in bounds |
| `JsonPack.TokensToMsgpack` | src/flb_pack.c:87-166 | packs the tokens up to the first that is unset, as the value function does |
| `JsonPack.PackState.JsonTokenise` | src/flb_pack.c:35-70 | however often the token array had to grow, the parser ends as after one call with enough tokens, and the count is updated |
| `JsonPack.PackJson` | src/flb_pack.c:176-208 | one complete message from a fresh state packs to the message of the one-shot tokenizer |
| `JsonPrint.Output.TryToWrite` | src/flb_pack.c:321-333 | writes all of the string or nothing, and succeeds if and only if it fits below the end |
| `JsonPrint.Output.WriteStr` | src/flb_utils.c:488-621 | on a plain string, succeeds exactly when the string fits and the space check does not refuse the offset, and appends it unchanged |
| `JsonPrint.Output.Msgpack2Json` | src/flb_pack.c:336-474 | appends exactly the JSON text of the value, and fails if and only if the text does not fit or a non-empty string starts at half of the room |
| `JsonPrint.RefusedExactly` | src/flb_utils.c:506-517 | for every value, the space check of the string writer refuses one of its strings if and only if a non-empty string starts at half of the room |
| `JsonPrint.FitsButRefused` | src/flb_pack.c:336-474 | printing an array of nine characters succeeds with 11 bytes of room and fails with 12 |
| `JsonPrint.TwiceIsClear` | src/flb_pack.c:485-548 | with twice the room no string is refused, so the growing loop ends |
| `JsonPrint.ToJsonStr` | src/flb_pack.c:507-548 | from any starting size the result is exactly the JSON text |
| `JsonValue.DecodeEncode` | src/flb_pack.c:87-166 | the packer calls for a value determine it, whatever follows |
| `JsonValue.SaturateFixes` | src/flb_pack.c:87-166 | saturation leaves a value alone if and only if its integers fit 64 bits |
| `JsonRoundTrip.WholeText` | lib/jsmn/jsmn.c:151-303 | the tokenizer reads the printed text of every array, map or string as the token tree of the value |
| `JsonRoundTrip.BareLeafIsPartial` | lib/jsmn/jsmn.c:35-79 | a bare number, boolean or null is never complete |
| `JsonRoundTrip.PrintThenPack` | src/flb_pack.c:87-166 | for every plain value, packing its printed text gives its encoding with integers saturated, or nothing for a bare leaf; exactly its encoding if and only if it is no bare leaf and its integers fit |
| `JsonRoundTrip.PrintPackUnpack` | src/flb_pack.c:336-474 | reading that message back gives the value that was printed |
| `Decimal.Digits10IsLength` | src/flb_parser.c:34-52 | the comparison tree is the length of the decimal text, for every number |
| `Decimal.DecDenotes` | src/flb_parser.c:34-80 | the decimal text denotes the number and has no leading zero |
| `Decimal.U64ToStr` | src/flb_parser.c:54-80 | writes exactly the canonical digits at the start of the buffer and nothing else |
| `HttpResponse.Response.Consume` | src/flb_http_client.c:148-151 | removes bytes in the middle, keeps the rest in order, and re-terminates |
| `HttpResponse.Response.Process` | src/flb_http_client.c:153-267 | the compacted buffer holds the decoded bytes followed by the undecoded rest, with the verdict and payload size of the decoder on values, which sees the whole buffer before the chunk |
| `HttpResponse.Response.ProcessData` | src/flb_http_client.c:322-345 | with the payload marked the body is decoded, and without it the answer is OK and nothing changes |
| `HttpResponse.Response.ReadBody` | src/flb_http_client.c:794-838 | the read loop from the read that completes the headers does what decoding the reads one by one does, and nothing if that read held no more |
| `HttpResponse.Response.ReadStream` | src/flb_http_client.c:269-346 | a whole stream in any pieces ends with OK and the recorded size, and the payload is the data of its chunks, or empty exactly when the headers ended a read or there is no data |
| `HttpChunked.DecodeResumes` | src/flb_http_client.c:153-267 | after a call that wants more, decoding the rest with more bytes is decoding everything at once |
| `HttpChunked.VerdictStands` | src/flb_http_client.c:153-267 | a verdict does not depend on what arrives after it; the fault at a negative size that passes stands unless the bytes to go on had come with it |
| `HttpChunked.ReadsAreOneShot` | src/flb_http_client.c:794-838 | however a stream that meets no negative size that passes, with the bytes to go on after it, is cut into reads, the outcome is that of decoding it whole |
| `HttpChunked.OneShotExactly` | src/flb_http_client.c:153-267 | for every recogniser of chunks that commits as the source does, every way of reading a body has an outcome, and the same, if and only if decoding meets no negative size that passes and none without a meaning |
| `HttpChunked.SourceIsOneShotExactly` | src/flb_http_client.c:153-267 | the same for the recogniser of the source, on every body after every head |
| `HttpChunked.SkewedExactly` | src/flb_http_client.c:179-205 | a line that reads as -n passes if and only if n is 2, or it reaches back before the line and finds a CRLF in what is already decoded or in the headers |
| `HttpChunked.SkewedDepends` | src/flb_http_client.c:200-266 | after any line that passes so, in one read n bytes become payload and two are dropped unseen; cut after the line the call faults |
| `HttpChunked.MinusTwo` | src/flb_http_client.c:200-266 | so it is with the line `-2` after anything |
| `HttpChunked.MinusSix` | src/flb_http_client.c:200-266 | and with the line `-6` right after a CRLF, such as the end of the headers |
| `HttpChunked.BodyExactly` | src/flb_http_client.c:307-345 | a whole stream is read as its data if and only if the headers did not end a read, or there is no data |
| `HttpChunked.NextChunkRecognises` | src/flb_http_client.c:162-235 | what is decided about a chunk is not changed by more bytes |
| `HttpChunked.WholeChunk` | src/flb_http_client.c:162-198 | a chunk of fewer than 2^31 bytes that has arrived is recognised, whatever follows |
| `HttpChunked.PartialChunk` | src/flb_http_client.c:162-198 | a proper prefix of such a chunk is neither data nor an error |
| `HttpChunked.ZeroLine` | src/flb_http_client.c:209-235 | a terminating line that reads as 0 is accepted if and only if it has one or three characters |
| `HttpChunked.StreamPrefix` | src/flb_http_client.c:153-267 | after any prefix of a stream the decoded bytes are the chunks that have arrived, the rest is the raw suffix, and OK comes exactly at the end |
| `HttpChunked.AnyPartition` | src/flb_http_client.c:153-267 | for every partition of a prefix into reads: the data of the whole chunks that arrived is decoded, exactly the bytes after them are left, less than another chunk, and OK with all the data comes exactly at the end |
| `TaskWord.SignalComesBack` | include/fluent-bit/flb_task.h:48-52 | result, slot and thread come back from the word if and only if the thread id is below 2^14 |
| `Scheduler.ApplyKeepsOwned` | src/flb_scheduler.c:101-182 | every step keeps each request in one list with a timer of its own, and the timers exactly those and the frame timer |
| `Scheduler.OwnedAlways` | src/flb_scheduler.c:200-287 | so in every run |
| `Scheduler.NeverEarly` | src/flb_scheduler.c:150-182 | under any pattern of frame ticks no request fires before its time |
| `Scheduler.ExactlyOnTime` | src/flb_scheduler.c:150-182 | with frame ticks at most a frame apart every request fires at exactly its time, and a parked one is not yet due |
| `Scheduler.ExactlyIfPromotedInTime` | src/flb_scheduler.c:150-182 | in every run the timer of an armed request is set for exactly its time if it was within a frame, and for a parked one if and only if the frame tick that promoted it was not after that time; otherwise it is a second after the tick |
| `Scheduler.LateWithoutFrames` | src/flb_scheduler.c:150-182 | a run in which the frame ticks stop and a request for 20 seconds fires after 31 |
| `Scheduler.SchedulerCtx.RequestCreate` | src/flb_scheduler.c:200-248 | arms a request within the frame and parks a later one |
| `Scheduler.SchedulerCtx.RequestDestroy` | src/flb_scheduler.c:250-267 | removes the request and its timer, nothing else |
| `Scheduler.SchedulerCtx.RequestInvalidate` | src/flb_scheduler.c:269-287 | destroys the first armed request for the retry, if any; parked ones are not looked at |
| `Scheduler.SchedulerCtx.Promote` | src/flb_scheduler.c:150-182 | one pass moves exactly the due requests, in order, with the seconds they have left |
| `Backoff.RandomUniform` | src/flb_scheduler.c:60-95 | the first random number that is kept decides, and the result lies between the bounds |
| `Backoff.EachOutcomeAlike` | src/flb_scheduler.c:85-94 | every outcome is reached from equally many random numbers |
| `Backoff.ProductFits` | src/flb_scheduler.c:191-197 | the product fits an int if and only if there were at most 28 attempts |
| `Backoff.BackoffFullJitter` | src/flb_scheduler.c:191-197 | the wait is the outcome of the first random number that is kept, between 0 and the bound for the attempt, and at most the cap |
| `Backoff.EachWaitAlike` | src/flb_scheduler.c:191-197 | every wait up to the bound is reached from equally many random numbers |
| `Backoff.BoundDoubles` | src/flb_scheduler.c:191-197 | the bound doubles with each attempt up to the cap, which it reaches at the ninth |
| `TaskInv.WordFindsSender` | src/flb_engine.c:134-168 | under the invariant the next word decodes to the task that sent it and to a linked, returned thread of it |
| `TaskSteps.CreateKeeps` | src/flb_task.c:163-198 | creating a task keeps the invariant of slots, threads, words, retries and requests |
| `TaskSteps.StartKeeps` | src/flb_engine_dispatch.c:64-105 | so does starting it |
| `TaskSteps.ReturnKeeps` | include/fluent-bit/flb_output.h:416-444 | so does a thread that returns |
| `TaskSteps.ConcludeKeeps` | src/flb_engine.c:165-176 | so does a word with OK, and one at the retry limit |
| `TaskSteps.AbandonKeeps` | src/flb_engine.c:241-246 | so does a word with ERROR |
| `TaskSteps.RescheduleKeeps` | src/flb_engine.c:177-240 | so does a word that gets a retry |
| `TaskSteps.FireKeeps` | src/flb_engine_dispatch.c:37-62 | so does a retry whose timer goes off |
| `TaskSteps.FrameKeeps` | src/flb_scheduler.c:150-182 | so does a frame tick |
| `TaskRuns.InvAlways` | src/flb_engine.c:134-246 | the invariant holds at every step of every run |
| `TaskRuns.EveryWordFindsItsSender` | src/flb_engine.c:134-168 | in every run every word the engine reads finds the very task and thread that sent it, although slots are reused |
| `TaskRuns.RetriesAreBounded` | src/flb_task.c:88-138 | with a retry limit L a route is dispatched at most L + 2 times |
| `TaskRuns.NothingFaults` | src/flb_engine.c:134-246 | where no request dangles, nothing the environment does touches a task, thread or retry that is gone |
| `TaskRuns.HandleDangling` | src/flb_task.c:377-426 | a word leaves a request dangling if and only if it ends the last thread of a task with a parked request |
| `TaskRuns.DanglingExactly` | src/flb_task.c:73-86 | over a whole run no request outlives its task, if and only if no word does that |
| `TaskRoutes.RouteStates` | src/flb_engine.c:165-246 | at every step of every run the last word of a route of a started task was OK, ERROR or RETRY at the limit if and only if the route has no thread and no scheduled retry, and it never has both |
| `TaskRoutes.FinishedForGood` | src/flb_engine.c:165-246 | a finished route stays finished while its task lives |
| `TaskRoutes.NextFinished` | src/flb_engine_dispatch.c:37-105 | no step gives a finished route a thread or a request |
| `TaskEnds.ReportedAlways` | include/fluent-bit/flb_output.h:416-444 | in every run every linked thread that has returned has its word queued |
| `TaskEnds.NeverStuck` | src/flb_engine.c:165-246 | in every run a started task with routes has a thread that has not returned, a queued word or a scheduled request |
| `TaskEnds.TasksEnd` | src/flb_engine.c:134-246 | with retry limits, each event of a started task leaves exactly one event less to come, at least one is left while the task lives, and there are at most three times the sum of limit + 2 over its routes |
| `TaskEnds.NoRouteNeverEnds` | src/flb_task.c:322-375 | in every run a task without routes keeps its slot for good |
| `TaskLife.WorkIsBounded` | src/flb_task.c:88-138 | over a whole run a task takes at most the sum of limit + 2 words, and timers beyond its first threads, over its routes; while it lives the words are exactly the threads that have ended |
| `TaskScope.OneRouteNeverDangles` | src/flb_task.c:377-426 | where every task has one route no request outlives its task |
| `TaskScope.OnceNeverDangles` | src/flb_scheduler.c:200-248 | with a retry limit of 0 every wait fits the frame and no request outlives its task |
| `TaskScope.OneRouteNeverFaults` | src/flb_engine.c:134-246 | where every task has one route, every step the environment can take in any run touches only what is still there |
| `TaskScope.OnceNeverFaults` | src/flb_engine.c:134-246 | and so it is with a retry limit of 0 |
| `TaskTiming.SchedulerRun` | src/flb_scheduler.c:200-306 | the scheduler of an engine run does a run of its own, with the same clock discipline |
| `TaskTiming.RetriesFireOnTime` | src/flb_scheduler.c:150-182 | in every engine run no retry fires early, and with frame ticks at most a frame apart every retry fires at exactly its time |
| `TaskScope.TwoRoutesCanDangle` | src/flb_task.c:377-426 | a run with two routes, the default limits and only waits that the backoff chooses, after which a parked request outlives its task |
| `Engine.EngineCtx.constructor` | src/flb_scheduler.c:317-370 | a fresh engine is the initial state |
| `Engine.EngineCtx.MapGetTaskId` | src/flb_task.c:47-60 | the lowest free slot, or none |
| `Engine.EngineCtx.TaskCreate` | src/flb_task.c:201-375 | a new task in the lowest free slot; none without routes unless created directly, and none when the table is full |
| `Engine.EngineCtx.AddThread` | src/flb_task.c:429-454 | the next thread id, never used before, is linked and counted |
| `Engine.EngineCtx.TaskStart` | src/flb_engine_dispatch.c:64-105 | one thread for every route, in order |
| `Engine.EngineCtx.OutputReturn` | include/fluent-bit/flb_output.h:416-444 | the word for result, slot and thread is queued |
| `Engine.EngineCtx.RetryCreate` | src/flb_task.c:88-138 | refuses and destroys the retry if and only if its attempts exceed a limit that is not negative; otherwise counts one more attempt or makes the first |
| `Engine.EngineCtx.RetryClean` | src/flb_task.c:141-160 | drops the retry of the output and its armed request, if any |
| `Engine.EngineCtx.ThreadDestroy` | include/fluent-bit/flb_output.h:199-232 | unlinks the thread with that id and counts one user less |
| `Engine.EngineCtx.TaskDestroy` | src/flb_task.c:377-426 | frees the slot and invalidates the requests of all its retries |
| `Engine.EngineCtx.Manager` | src/flb_engine.c:134-246 | one word is handled as the step on values does, in all four cases |
| `Engine.EngineCtx.DispatchRetry` | src/flb_scheduler.c:289-306 | a thread for the output of the retry, and the request is destroyed |
| `Engine.EngineCtx.HandleEvent` | src/flb_engine.c:134-246 | under the invariant any queued word finds its sender, is handled, and the invariant holds again |
| `Engine.EngineCtx.HandleTimer` | src/flb_scheduler.c:289-306 | where no request dangles any timer finds its retry, and the invariant holds again |
| `Router.RouterMatch` | src/flb_router.c:32-72 | answers yes if and only if the stars of the pattern can be replaced by strings so that it becomes the tag |
| `Router.MatchFromStar` | src/flb_router.c:38-60 | from a star on, the same question character by character |
| `Router.FitsIsMatches` | src/flb_router.c:30-31 | the character-by-character reading of a pattern is its meaning by replacement |
| `Utf8.Decoder.Decode` | include/fluent-bit/flb_utf8.h:75-86 | the masks and shifts of the source do what the arithmetic step does |
| `Utf8.RejectAbsorbs` | include/fluent-bit/flb_utf8.h:55-72 | a rejected string stays rejected and yields nothing more |
| `Utf8.WellFormedIsEncode` | include/fluent-bit/flb_utf8.h:55-72 | every sequence of the grammar in section 4 of RFC 3629 encodes the scalar value it carries |
| `Utf8.EncodeIsWellFormed` | include/fluent-bit/flb_utf8.h:55-72 | and every encoding is such a sequence |
| `Utf8.DecodeEncode` | include/fluent-bit/flb_utf8.h:75-86 | decoding the encoding of any scalar values yields them |
| `Utf8.AcceptedIsEncoded` | include/fluent-bit/flb_utf8.h:75-86 | what is accepted is the encoding of the code points read off |
| `Utf8.AcceptsExactlyUtf8` | include/fluent-bit/flb_utf8.h:55-86 | a string is accepted if and only if it is a concatenation of encoded scalar values |
| `Utf8.Print` | include/fluent-bit/flb_utf8.h:89-101 | the loop reports well-formedness exactly, and the code points encode back to the string |
| `ChunkName.ChunkInfo` | src/flb_buffer_chunk.c:87-167 | reads a name as the value function does, with every way to fail |
| `ChunkName.ParseExactly` | src/flb_buffer_chunk.c:87-167 | a name reads as given fields if and only if it spells them: 40 hex digits, numbers of one to eight digits, a tag that starts with a letter |
| `ChunkName.NameRoundTrip` | src/flb_buffer_chunk.c:397-401 | a printed name reads back as its fields, or fails exactly when routes or worker have more than eight digits or the tag does not start with a letter |
| `ChunkName.RemoveThenRead` | src/flb_buffer_chunk.c:245-294 | removing a route and reading the new name gives the routes that are left and all other fields unchanged |
| `ChunkName.ScanReadsRoutes` | src/flb_buffer_chunk.c:879-886 | the move step reads the routes that were printed |
| `ChunkDisk.NothingMissing` | src/flb_buffer_chunk.c:548-613 | every request to delete a reference finds its file, and every step keeps the invariant |
| `ChunkDisk.InvAlways` | src/flb_buffer_chunk.c:463-910 | the invariant of files and queues holds in every interleaving |
| `ChunkDisk.DeleteForm` | src/flb_buffer_chunk.c:463-544 | a delete request drops the chunk if and only if it is there, readable and has no undelivered route |
| `ChunkDisk.ReferencesAreUndelivered` | src/flb_buffer_chunk.c:841-910 | at every step the references of a chunk are exactly its undelivered routes, and the chunk is there while one is left |
| `ChunkDisk.GoneOnceDelivered` | src/flb_buffer_chunk.c:463-544 | delivered everywhere and nothing queued for it, the chunk is gone if and only if it had a route and a readable name |
| `ChunkDisk.ScanExactly` | src/flb_buffer_chunk.c:747-839 | a scan puts back exactly the readable chunks with undelivered routes, each with just those |
| `ChunkDisk.RestartFindsUndelivered` | src/flb_buffer_chunk.c:747-839 | at any step of any run the mask put back is the routes without the delivered ones |
| `BufferWorker.Worker.ChunkFind` | src/flb_buffer_chunk.c:176-239 | a file with the hash, or none if there is none, in any listing order |
| `BufferWorker.Worker.ChunkAdd` | src/flb_buffer_chunk.c:366-459 | the named file is in the incoming directory, and its move is queued if and only if the routes are not negative as an int |
| `BufferWorker.Worker.RealMove` | src/flb_buffer_chunk.c:841-910 | the chunk moves to the outgoing directory with a reference for each output in its routes |
| `BufferWorker.Worker.ChunkDeleteRef` | src/flb_buffer_chunk.c:548-613 | in any directories, the reference found goes and a delete request follows, and without one the route is taken from the name of the chunk; under the run invariant it is always found |
| `BufferWorker.Worker.ChunkMiss` | src/flb_buffer_chunk.c:297-352 | the route is taken from the name of the chunk in the outgoing directory, else in the incoming one |
| `BufferWorker.Worker.RemoveRouteOf` | src/flb_buffer_chunk.c:245-294 | a readable file is renamed to the same fields without the route, and any other stays |
| `BufferWorker.Worker.ChunkDelete` | src/flb_buffer_chunk.c:463-544 | in any directories, the chunk found goes if and only if its name is readable and no output references it |
| `BufferWorker.Worker.ChunkScan` | src/flb_buffer_chunk.c:747-839 | computes exactly the entries to put back |
| `InputCtx.FilterDo` | src/flb_filter.c:59-108 | the new bytes at the end of the buffer are replaced by what the matching filters make of them in order; the bytes before stay |
| `InputCtx.Instance.DyntagGet` | src/flb_input.c:811-847 | the first open node of the tag, or a new one at the end |
| `InputCtx.Instance.DyntagAppendRaw` | src/flb_input.c:874-899 | appends, filters, counts, pauses and locks as the step on values does |
| `InputCtx.Instance.BufSizeSet` | include/fluent-bit/flb_input.h:491-519 | counts the bytes of all buffers, and resumes a paused input that is below its limit |
| `InputCtx.Instance.BufCheck` | include/fluent-bit/flb_input.h:522-538 | pauses an input at or over its limit, calling back only on a change |
| `InputCtx.Instance.DbufWrite` | include/fluent-bit/flb_input.h:604-652 | a write to a node is undone while paused, and otherwise filtered and counted |
| `InputCtx.Instance.BufWrite` | include/fluent-bit/flb_input.h:552-602 | the same for the buffer of the instance |
| `InputCtx.Instance.DyntagFlush` | src/flb_input.c:930-953 | the buffer is handed over whole, and the node is busy, unlocked and empty |
| `InputCtx.Instance.DispatchTags` | src/flb_engine_dispatch.c:127-157 | every node that is not busy is flushed in list order |
| `Input.OpenIsLast` | src/flb_input.c:811-847 | the node that takes data is the last of its tag that holds any |
| `Input.NothingLostOrReordered` | src/flb_input.c:874-953 | in every run and for every tag, the buffers handed over followed by the pending ones are exactly the filtered records taken in, in order |
| `Input.FlushGivesAll` | src/flb_engine_dispatch.c:127-157 | after a flush everything taken in has been handed over |
| `Input.HeldIsBounded` | include/fluent-bit/flb_input.h:469-538 | in every run a running input holds less than its limit, any input less than that plus the last append, and pause and resume alternate |
| `Input.PausedTakesNothing` | include/fluent-bit/flb_input.h:552-652 | an append or write while paused changes no data and does not resume |
| `Input.NoLimitNeverPauses` | include/fluent-bit/flb_input.h:469-480 | without a limit an input is never paused |

## Left out

- Shutdown and exit paths: tasks are destroyed there with threads still linked.
- Failures of allocation, timers and pipes, and a second event in the same batch for something the first one destroyed: one event at a time, and calls succeed.
- Thread ids from 2^14 on: runs keep to tasks with fewer threads, since the word cannot hold more (`TaskWord.SignalComesBack`).
- Task objects updated through pointers: a task is a record in a map from addresses, and the timers a set of addresses; list links are not modelled.
- Input threads, metrics, the queue-chunk event word (include/fluent-bit/flb_buffer.h:58) and other kinds of engine events.
- Runs of the buffer in which a reference is deleted before the chunk was moved: there the worker takes the route from the name (`BufferWorker.Worker.ChunkMiss`), and the directory theorems are about chunks delivered once they are outgoing.
- Output masks beyond an int: there are fewer than 32 outputs (the mask doubles at src/flb_output.c:243).
- File system errors, path lengths and file contents: directories are sets of names.
- ChunkName.ScanRoutes: a sign or space before the number, which the C scan would accept, cannot come from a printed name.
- JsonPrint.Output.WriteStr: strings that need escaping are not modelled: the escaping branches count the room from another offset than the one they write at, and bytes above 0x7f depend on the signedness of char.
- JsonPrint.Output.Msgpack2Json: for the same reason its strings are plain, and floats, binary and extension values are not modelled.
- JsonPrint.ToJsonStr: sizes at which doubling would wrap a size_t, and strings that need escaping.
- Floats: a token with a dot keeps its text, since `strtod` is foreign; printing floats, binary and extension values is not modelled.
- MessagePack bytes: a packed message is the sequence of packer calls.
- `flb_pack_json_state`, which packs several messages from one buffer, and the counting mode of jsmn without tokens.
- Widths of int and size_t in the tokenizer and printer: positions and sizes are unbounded.
- HttpChunked.NextChunk: a negative size that looks before the response, a size whose sum with 2 overflows a long, and a size of 2^31 or more once all its bytes are there have no outcome in the model (`Outside`, `Stray`): the first two are undefined in C, and the last is cut to an int.
- HttpResponse.Response.Consume: buffers of 2^31 bytes and more, since the source counts in an int.
- HTTP headers, proxies, authentication and the maximum buffer size.
- The digit table of `u64_to_str` and the UTF-8 table are given by their rules instead of as literals.
- Backoff.RandomUniform: seeding and the quality of `rand`; its numbers are an argument.
- Filters are functions of the data and the tag; state kept by a filter is not modelled.
- Input callbacks: `calls` logs status changes; a plugin without a callback is not told.
- Hash tables, growing strings, sockets, TLS, configuration, the command line and the plugins themselves: thin wrappers or foreign code.
