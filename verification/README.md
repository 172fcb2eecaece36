# Conversation store and chat streaming, modelled and proved in Dafny

This project models two parts of the backend and proves what they promise.

**Conversations.** `Conversation` and its turns are a mutable state machine that is flattened to three tables and
rebuilt from them; a chat call runs three short transactions around a model call that happens outside of them.

- `Aggregate` gives every operation as a function on values, `Operations` and `AggregateInvariant` say what the
  operations do and keep, and `Entities` has the classes whose methods are proved against those functions.
- `Mappers`, `RoundTrip`, `LoaderSoundness` and `Loadability` cover the way to rows and back.
- `Store`, `UnitOfWork`, `Transactions` and `Services` cover the tables, the commit boundary and the transactions.
- `Representation` and `Refinement` show that each transaction does to the tables what the operation does to the
  aggregate. `Protocol` is the state machine of any number of concurrent calls with archiving in between, one step per
  committed transaction; `ProtocolInvariant`, `ProtocolSteps` and `ProtocolSafety` prove what holds over every run,
  and `ProtocolProgress` exactly what each step of a call comes to. `CallRun` says how a whole call must end, given what
  the clock, the model, the other calls and a cancellation do to it; `ChatService` has `complete` as a method with other
  calls committing wherever it waits, proved to be a run of that machine and to end so. `History`, `ContextBuilder` and
  `Paging` cover the reads.

**Streaming.** `Sse`, `SseGuard` and `SseParser` are the incremental parser, `OpenAiStream` and `MockProvider` the
provider streams, `ChatStream` the chat events and the response that carries them, `SsePrinter` the frames, and
`Pipeline` the chain from the provider's text to what a client reads.

Text is a sequence of characters, time an integer, an identifier a natural number. The tables are maps from primary key
to row, and a query may return its rows in any order. JSON decoding is an arbitrary function, as are the schema checks
of requests and chunks. Clock readings, drawn identifiers, the model's answer, the scheduling of calls and the rows'
order are inputs over which every statement is quantified.

Facts of the code that its documentation does not mention, and that the statements follow:

- `fail_turn` and `cancel_turn` accept an archived conversation. When that happens strictly after the archiving,
  `updated_at` differs from `archived_at`, `rehydrate` rejects the stored conversation from then on, and no later call
  can change it (`Loadability.LoadableAfter`, `ProtocolSafety.UnloadedByLateClose`, `ProtocolSafety.UnloadableIsFrozen`).
- A usage whose three counts are all None is read back as None (`RoundTrip.StoreThenLoad`).
- The time of completion is read before the lock is taken. A commit in between makes the completion fail and leaves the
  turn pending (`ProtocolSafety.FinishesIff`), so not every turn ends in a terminal status.
- `list_messages` loads the whole conversation first and takes no lock, so it fails for an unloadable conversation and
  may see a later state with each statement; the history read of a chat call does not load it (`Paging.PageOf`,
  `Paging.FoundOf`, `History.HistoryIsRecent`).
- The parser's size guard counts the unread buffer as well as the pending event, so whether an input passes depends on
  how it is cut (`SseGuard.OnePassIffCutsFit`, `Sse.SplitCommentIsRefused`, `Sse.LargeChunkIsRefused`).
- The loader checks neither distinct idempotency keys nor the order of message times.

`dafny verify dfyconfig.toml` checks the whole project.

## Model

| member | source | states |
|---|---|---|
| `Text.OptionalTextNormal` | backend/app/domain/conversations/value_objects.py:54-73 | what optional_text returns is trimmed, not blank and within its bound, and it returns a text unchanged exactly when the text already is |
| `Text.StripIs` | backend/app/domain/conversations/value_objects.py:66 | every text is white space, its stripped text, white space; and the stripped text is trimmed |
| `Text.StripIsUnique` | backend/app/domain/conversations/value_objects.py:66 | the trimmed text between white space is the stripped one: there is no other |
| `Text.BlankIff` | backend/app/domain/conversations/entities.py:56 | a text counts as blank exactly when it has no character but white space |
| `Text.SpacesAre` | backend/app/domain/conversations/value_objects.py:66 | the characters that count as white space, listed |
| `Operations.AcceptedIff` | backend/app/domain/conversations/entities.py:699-864 | an operation succeeds exactly under its guard on status, time, pending turn, content, metadata and key |
| `Operations.ArchivingIsFinal` | backend/app/domain/conversations/entities.py:699-710 | archiving is idempotent at any time and final over every later run, whose conversation keeps its archiving time, messages and turns; the archived aggregate is loadable at that moment, and later exactly as long as nothing touches it |
| `Operations.CreateOutcome` | backend/app/domain/conversations/entities.py:525-541 | a creation is refused exactly for an unusable title; otherwise an empty active conversation with the stripped title, both times equal, both numberings at 1 |
| `Operations.StartOutcome` | backend/app/domain/conversations/entities.py:712-758 | exactly when a start is refused and with which error (archived, time going back, blank content, unusable metadata, trimmed key already in the conversation); otherwise the whole new state |
| `Operations.CompleteOutcome` | backend/app/domain/conversations/entities.py:760-798 | exactly when a completion is refused and with which error (archived, time going back, blank answer, turn not pending, unusable metadata); otherwise the whole new state |
| `Operations.FailOutcome` | backend/app/domain/conversations/entities.py:800-823 | a failure is refused exactly for time going back, a turn that is not pending or unusable metadata, and never because the conversation is archived; otherwise the whole new state |
| `Operations.CancelOutcome` | backend/app/domain/conversations/entities.py:825-840 | a cancellation is refused exactly for time going back or a turn that is not pending, and never because the conversation is archived; otherwise the whole new state |
| `Operations.UnknownTurn` | backend/app/domain/conversations/entities.py:842-853 | a turn id that is not in the conversation is refused, after the archived check for completion only |
| `AggregateInvariant.ApplyKeepsInv` | backend/app/domain/conversations/entities.py:699-864 | every operation keeps the invariant, and the aggregate only evolves: turns and messages are appended, a turn changes at most once, when it leaves pending, and archiving is final |
| `AggregateInvariant.RunKeepsInv` | backend/app/domain/conversations/entities.py:525-541 | after every run from creation, raising calls included: turns 1..n and messages 1..m in list order, m = n + completed turns, next sequence m+1, an assistant message exactly on completed turns and after its user message, distinct keys, message times non-decreasing, nothing later than the aggregate |
| `AggregateInvariant.OwnerIsUnique` | backend/app/domain/conversations/entities.py:451-468 | a message belongs to one turn only |
| `Entities.ConversationTurn.Complete` | backend/app/domain/conversations/entities.py:359-409 | the object ends with the specified value, or the call raises the specified error and changes no field |
| `Entities.ConversationTurn.Fail` | backend/app/domain/conversations/entities.py:411-442 | the same for a failure |
| `Entities.ConversationTurn.Cancel` | backend/app/domain/conversations/entities.py:444-449 | the same for a cancellation |
| `Entities.Conversation.Archive` | backend/app/domain/conversations/entities.py:699-710 | the object reaches the specified value, or raises the specified error and is unchanged |
| `Entities.Conversation.StartTurn` | backend/app/domain/conversations/entities.py:712-758 | the same; on success one new turn object is appended |
| `Entities.Conversation.CompleteTurn` | backend/app/domain/conversations/entities.py:760-798 | the same; the turn returned is the object found under the id |
| `Entities.Conversation.FailTurn` | backend/app/domain/conversations/entities.py:800-823 | the same for a failure |
| `Entities.Conversation.CancelTurn` | backend/app/domain/conversations/entities.py:825-840 | the same for a cancellation |
| `Entities.Conversation.FindTurn` | backend/app/domain/conversations/entities.py:842-847 | the loop finds the first turn with the id |
| `Entities.Conversation.KeyTaken` | backend/app/domain/conversations/entities.py:745-748 | the loop finds out whether some turn has the key |
| `RoundTrip.RehydrateIsSound` | backend/app/domain/conversations/entities.py:169-287 | rehydration of a turn accepts only well-formed turns, and changes nothing but white space around text |
| `RoundTrip.StoreThenLoad` | backend/app/repositories/conversation_mappers.py:158-188 | an aggregate stored as rows and loaded from them in any order comes back equal (a usage without counts becomes None) exactly when it is active or archived_at equals updated_at; otherwise the load is rejected; storing what came back gives the same rows |
| `Loadability.LoadableAfter` | backend/app/domain/conversations/entities.py:634-646 | an operation on a loadable aggregate leaves it loadable unless it is exactly a failure or cancellation after archiving at a strictly later time |
| `Loadability.LateFailureUnloads` | backend/app/domain/conversations/entities.py:800-823 | a concrete run whose stored form cannot be loaded: start, archive, fail later |
| `LoaderSoundness.LoadIsSound` | backend/app/domain/conversations/entities.py:543-659 | any rows with unique primary keys that the mapper accepts form a well-formed aggregate: contiguous sequences, next sequence after the last message, each message in a turn, an assistant message exactly on completed turns, nothing later than updated_at |
| `LoaderSoundness.LoadThenStore` | backend/app/repositories/conversation_mappers.py:56-156 | loading rows and storing the result gives the rows back, up to white space around text |
| `LoaderSoundness.MessageCount` | backend/app/domain/conversations/entities.py:604-619 | equal id sets force one message per turn plus one per completed turn |
| `Mappers.GroupByTurn` | backend/app/repositories/conversation_mappers.py:166-168 | the dictionary holds, for every turn id, exactly its messages in row order |
| `Mappers.LoadConversation` | backend/app/repositories/conversation_mappers.py:158-188 | the mapper run step by step returns the specified aggregate or error |
| `Permutations.SortByRestores` | backend/app/domain/conversations/entities.py:583-584 | sorting any order of a strictly sorted list gives the list back |
| `UnitOfWork.EveryContextAllOrNothing` | backend/app/repositories/unit_of_work.py:53-102 | over every sequence of calls each context that was entered and left ends in exactly one of commit and rollback, and leaves all of its rows or none |
| `UnitOfWork.ExitKeepsStore` | backend/app/repositories/unit_of_work.py:66-84 | leaving a context never changes the store; without a commit the session is rolled back and the store is as at entry |
| `UnitOfWork.SqlAlchemyUnitOfWork.Enter` | backend/app/repositories/unit_of_work.py:53-64 | entering twice raises; otherwise a fresh session and an unfinished unit |
| `UnitOfWork.SqlAlchemyUnitOfWork.Commit` | backend/app/repositories/unit_of_work.py:86-91 | commit stores the rows flushed so far once, and raises when there is no open unit |
| `UnitOfWork.SqlAlchemyUnitOfWork.Rollback` | backend/app/repositories/unit_of_work.py:93-97 | rollback drops the rows at most once |
| `UnitOfWork.SqlAlchemyUnitOfWork.Exit` | backend/app/repositories/unit_of_work.py:66-84 | the session left behind was committed or rolled back as specified |
| `Transactions.ScanTurns` | backend/app/repositories/conversations.py:92-97 | the query returns every turn row of the conversation once |
| `Transactions.GetForUpdate` | backend/app/repositories/conversations.py:78-90 | None without a row; otherwise a fresh object with the loaded value, or the load error |
| `Services.ConversationServices.CreateConversation` | backend/app/application/conversations/services.py:61-72 | one row is committed, or none and the error |
| `Services.ConversationServices.ArchiveConversation` | backend/app/application/conversations/services.py:74-87 | the tables afterwards are those of the archiving transaction, or unchanged with the error |
| `Services.ConversationServices.StartPendingTurn` | backend/app/application/conversations/services.py:303-325 | root, turn and message rows are all committed, or none and the error |
| `Services.ConversationServices.CompleteTurn` | backend/app/application/conversations/services.py:343-375 | root, turn and message rows are all committed, or none and the error |
| `Services.ConversationServices.BestEffortFail` | backend/app/application/conversations/services.py:377-409 | the failed turn and its root are committed, or nothing; no error gets out |
| `Services.ConversationServices.BestEffortCancel` | backend/app/application/conversations/services.py:411-434 | the same for a cancellation |
| `Representation.RepresentsUnique` | backend/app/repositories/conversation_mappers.py:24-78 | the aggregates determine every row of the three tables |
| `Representation.LoadRepresented` | backend/app/repositories/conversations.py:92-105 | a stored aggregate loads as itself, whatever order its rows come in, or is rejected exactly when it is not loadable |
| `Representation.SaveRootIsFull` | backend/app/repositories/conversations.py:67-76 | the columns save leaves alone never change, so it writes the full row |
| `Representation.SaveTurnIsFull` | backend/app/repositories/conversations.py:159-176 | the same for a turn row |
| `Representation.TurnAdmitted` | backend/app/models/conversations.py:92-101 | a new turn row violates neither primary key nor unique constraint |
| `Representation.MessageAdmitted` | backend/app/models/conversations.py:147-154 | a new message row violates neither primary key nor unique constraint |
| `Refinement.TransactRefines` | backend/app/application/conversations/services.py:303-434 | a transaction that loads, applies the operation and writes the few rows it thinks changed leaves the tables the full serialisation of the aggregate after the operation, and gives its caller what the operation returned or raised |
| `Refinement.CompletionReplies` | backend/app/application/conversations/services.py:343-375 | a completion hands back the turn it completed, with its answer as the assistant message, numbered next and of the completion's time |
| `Refinement.CreateRefines` | backend/app/application/conversations/services.py:61-72 | creation adds exactly the new aggregate, and exactly its row, column by column |
| `History.HistoryIsRecent` | backend/app/repositories/conversations.py:224-250 | the history read returns the last messages of completed turns in sequence order, whatever order the rows come in |
| `History.CompletedMessagesAre` | backend/app/repositories/conversations.py:224-250 | what that read selects: a message is among them exactly when it belongs to a turn that is completed |
| `ChatService.ConversationChatService.Complete` | backend/app/application/conversations/services.py:168-301 | a call, with whatever others commit while it waits and wherever it is cancelled, is a run of the state machine with this call as one caller; each of its own steps is the one its surroundings leave it - it is interrupted only where it is cancelled or its limit is not positive, and a cleanup is lost only when it does not get through; its outcome and the tables are those `EndsAs` spells out |
| `CallRun.CallEndsAs` | backend/app/application/conversations/services.py:168-301 | how a call ends, in full: refused for the first reason that applies, or its three rows stored; stopped, or the request that all completed messages give is asked exactly when the limit can be read with, the schema accepts and the message fits; an answer with text is returned and stored exactly when the last transaction finds the conversation active, not touched later, and the answer fits; a failure or cancellation is recorded, with its code and names, exactly when the cleanup gets through and the conversation takes it; a step that stops or refuses the call writes nothing |
| `CallRun.QuietCallReturns` | backend/app/application/conversations/services.py:168-301 | a call that is not cancelled and that no other call disturbs, on a conversation that takes its turn, with a usable limit, a message within the budget and a good answer, asks the model and returns that answer |
| `CallRun.CourseIsRun` | backend/app/application/conversations/services.py:168-301 | the states a call passes are one run of the machine, its own steps and the others' in order |
| `ChatService.ConversationChatService.StartPendingTurn` | backend/app/application/conversations/services.py:172-187 | the first transaction, and what each of its results does to the call, conflict codes included |
| `ChatService.ConversationChatService.ReadHistory` | backend/app/application/conversations/services.py:188-194 | limit check and history read, and what an error does to the call |
| `ChatService.ConversationChatService.BuildRequest` | backend/app/application/conversations/services.py:195-215 | the request, or the failure recorded when it cannot be built |
| `ChatService.ConversationChatService.Generate` | backend/app/application/conversations/services.py:216-254 | the four ways the model call ends, and the blank answer |
| `ChatService.ConversationChatService.CompleteTurn` | backend/app/application/conversations/services.py:255-301 | the last transaction and its two outcomes |
| `ChatService.ConversationChatService.RecordFailure` | backend/app/application/conversations/services.py:224-253 | whatever becomes of the cleanup, the call ends with a generation error |
| `ChatService.ConversationChatService.RecordCancel` | backend/app/application/conversations/services.py:218-223 | whatever becomes of the cleanup, the call ends cancelled |
| `ProtocolSteps.NextKeepsSafe` | backend/app/application/conversations/services.py:168-434 | every step of every caller keeps the protocol invariant |
| `ProtocolSafety.TablesAreSerialisation` | backend/app/application/conversations/services.py:303-434 | in every interleaving, after each committed step the tables are exactly the full serialisation of the aggregates the domain operations alone would have produced |
| `ProtocolSafety.TablesAreLawful` | backend/app/models/conversations.py:31-182 | no interleaving violates a primary key, unique, foreign-key or check constraint of the schema, or the length of a text column |
| `ProtocolSafety.RowsAreKept` | backend/app/domain/conversations/entities.py:470-474 | in every run a turn row leaves pending at most once and is frozen from then on, a message row never changes, a conversation row keeps its id, title and creation time and its archiving is final, and no row disappears |
| `ProtocolSafety.OneGeneration` | backend/app/application/conversations/services.py:216-217 | in every interleaving at most one generation per turn, and per conversation and trimmed idempotency key |
| `ProtocolSafety.RequestsAreBounded` | backend/app/application/conversations/services.py:195-204 | every request on record is the caller's own message, as a user message, after messages of completed turns only, with the roles and texts they are stored with, in sequence order, within both bounds, for the command's model and request id |
| `ProtocolSafety.FullHistoryGivesSameRequest` | backend/app/application/conversations/services.py:188-204 | the request made from the last messages read is the one all completed messages of the conversation would give |
| `ProtocolSafety.OutcomesAgree` | backend/app/application/conversations/services.py:205-301 | returned: the turn is stored as completed with exactly that text, time and metadata, and its answer as an assistant message of that time; generation error: failed with that code, or pending; cancelled: cancelled or pending; stopped otherwise: pending |
| `ProtocolSafety.FinishesIff` | backend/app/application/conversations/services.py:255-275 | an answered call returns exactly when the conversation is active, was not touched after the time read before the lock, and the answer's metadata fits; otherwise its turn stays pending |
| `ProtocolProgress.StartsIff` | backend/app/application/conversations/services.py:303-325 | the first transaction succeeds exactly when the conversation is active, time does not go back, content and metadata are usable and no turn has the trimmed key; then root, turn and message rows hold what the command said; otherwise the call is refused for the first reason that applies and nothing is written |
| `ProtocolProgress.ReadsIff` | backend/app/application/conversations/services.py:188-194 | the history read gives the last messages of completed turns, as many as the smaller limit, or stops the call exactly when its limit is not positive or beyond the repository's |
| `ProtocolProgress.BuildsStep` | backend/app/application/conversations/services.py:195-215 | the request is the one all completed messages would give and goes on record as a model call, exactly when the schema accepts and the message fits; otherwise the call fails with conversation_context_invalid |
| `ProtocolProgress.RecordsFailureIff` | backend/app/application/conversations/services.py:377-409 | a failure is recorded exactly when the conversation's row says that it loads, time does not go back and the texts fit; the turn's row then has the status, code, provider, model and times; otherwise nothing is written |
| `ProtocolProgress.RecordsCancelIff` | backend/app/application/conversations/services.py:411-434 | the same for a cancellation |
| `ProtocolProgress.StoppedWritesNothing` | backend/app/application/conversations/services.py:343-375 | a completion that is refused writes nothing |
| `ProtocolProgress.UndisturbedCallReturns` | backend/app/application/conversations/services.py:168-301 | a call nobody disturbs, on a conversation that takes its turn, with a message within the budget, a model that answers and a clock that does not go back, returns that answer |
| `ProtocolSafety.UnloadedByLateClose` | backend/app/domain/conversations/entities.py:634-646 | a loadable conversation becomes unloadable exactly by a failure or cancellation committed after archiving at a strictly later time |
| `ProtocolSafety.UnloadableIsFrozen` | backend/app/application/conversations/services.py:377-434 | once its load is rejected no later step of any caller changes or adds a row of the conversation, and every later load is rejected |
| `Paging.PageOf` | backend/app/repositories/conversations.py:201-222 | a page is the slice of the message list right behind the cursor, or the exact error |
| `Paging.FoundOf` | backend/app/repositories/conversations.py:40-44 | with nothing committed in between, get_by_id finds exactly the stored conversations and loads exactly the loadable ones |
| `Paging.PagingIsPrefix` | backend/app/application/conversations/services.py:125-149 | with writers between pages, what was read is always messages 1..k without a gap, and an empty page means that everything present at the start was read |
| `Paging.QuietPagingIsComplete` | backend/app/application/conversations/services.py:125-149 | without writers paging ends and returned every message exactly once, in order |
| `ContextBuilder.ConversationContextBuilder.BuildRequest` | backend/app/application/conversations/context_builder.py:38-82 | the backwards loop returns the specified request or error |
| `ContextBuilder.BuildsIff` | backend/app/application/conversations/context_builder.py:31-58 | exactly when a request is built, and the clamped limit |
| `ContextBuilder.SelectIsLongest` | backend/app/application/conversations/context_builder.py:60-68 | an end of the candidates fits the budget exactly when it is no longer than what is selected |
| `ContextBuilder.RequestIsBounded` | backend/app/application/conversations/context_builder.py:52-82 | count and characters sent are bounded; the history part is the longest end of the ordered history that fits, each message with its own role and text; the current message comes last, as a user message; model and request id are those asked for |
| `ContextBuilder.CutHistoryIsEnough` | backend/app/application/conversations/context_builder.py:52-54 | a history already cut to its last k messages gives the same request |
| `Sse.ChunkingIsOnePass` | backend/app/llm/http/sse.py:46-164 | for every text and every cutting that never trips the guard, the events, or the truncation error, of a one-pass reading; when the guard trips, a prefix of them |
| `Sse.DoneIsMarked` | backend/app/llm/http/sse.py:147 | for every text and cutting an event is a done marker exactly when its data is `[DONE]` |
| `Sse.JoinedSplits` | backend/app/llm/http/sse.py:144 | an event's data is its data lines with line feeds between them: cut at the line feeds it gives the lines back |
| `Sse.FinalizedIsClosed` | backend/app/llm/http/sse.py:46-79 | after finalize a parser has no more events, and a feed is refused |
| `SseGuard.OnePassIffCutsFit` | backend/app/llm/http/sse.py:166-169 | the guard stays quiet exactly when, at every chunk end and after every data line a chunk completes, the unread text plus the open event's data is within the limit, all read off the text and the cuts |
| `Sse.OnePassIffWithinPeak` | backend/app/llm/http/sse.py:46-79 | the parser gives the one-pass reading exactly when the largest size its own steps reach is within the limit |
| `Sse.SmallTextIsOnePass` | backend/app/llm/http/sse.py:46-79 | no cutting of a text within the limit ever trips the guard |
| `Sse.DataFieldIsDataOf` | backend/app/llm/http/sse.py:149-157 | the field split gives a value exactly for data lines, as section 9.2.6 of the HTML Living Standard reads them |
| `Sse.ExtractIsNextLine` | backend/app/llm/http/sse.py:113-137 | the next line of the buffer is the next line of the text, for CR, LF and CRLF, also cut between CR and LF |
| `Sse.FeedKeepsReady` | backend/app/llm/http/sse.py:46-59 | after a successful feed the counter equals the length of the joined data and buffer plus counter is within the limit |
| `Sse.SplitCommentIsRefused` | backend/app/llm/http/sse.py:166-169 | a comment line longer than the limit passes whole and is refused when its line end comes separately |
| `Sse.LargeChunkIsRefused` | backend/app/llm/http/sse.py:166-169 | an input refused in one chunk passes in smaller ones |
| `SseParser.SSEParser.Feed` | backend/app/llm/http/sse.py:46-59 | fields and result as specified; the counter stays exact |
| `SseParser.SSEParser.Finalize` | backend/app/llm/http/sse.py:61-79 | fields and result as specified |
| `SseParser.SSEParser.DrainLines` | backend/app/llm/http/sse.py:105-111 | the loop drains as specified |
| `SseParser.SSEParser.ExtractLine` | backend/app/llm/http/sse.py:113-137 | the scan returns the specified line and rest |
| `SseParser.SSEParser.ProcessLine` | backend/app/llm/http/sse.py:139-164 | fields and result as specified |
| `SseParser.ParseChunks` | backend/app/llm/http/sse.py:172-200 | the driver yields the specified events and failure |
| `SsePrinter.PrintThenParse` | backend/app/api/v1/routes/chat.py:140-146 | printed frames, cut anywhere, parse to one event per frame in order with exactly that JSON and never a done marker, exactly when the cuts fit the limit - in particular whenever the whole is within it |
| `SsePrinter.FrameIsThreeLines` | backend/app/api/v1/routes/chat.py:140-146 | a printed frame reads as an event line with its name, a data line with its JSON and an empty line |
| `OpenAiStream.TakePayloadIsDescribed` | backend/app/llm/providers/openai.py:225-274 | one payload is taken exactly when it is well formed and contradicts no identity or finish reason already known; what the mapper then knows |
| `OpenAiStream.MapEvents` | backend/app/llm/providers/openai.py:195-286 | the generator's loop yields the specified chunks and failure |
| `OpenAiStream.MapStreamContract` | backend/app/llm/providers/openai.py:195-286 | chunks numbered without gaps; the last one final exactly when the stream does not fail, which is exactly when [DONE] follows accepted payloads of which one gave a finish reason |
| `OpenAiStream.MapStreamDeltas` | backend/app/llm/providers/openai.py:270-284 | one chunk for each payload with content in the longest accepted prefix, in order and with exactly that content, whether or not the stream fails afterwards, and one more exactly when it does not |
| `OpenAiStream.IdentitiesNeverChange` | backend/app/llm/providers/openai.py:333-345 | once a chunk has a request id every later chunk has the same one, and a model once reported never changes |
| `OpenAiStream.FinalChunkSummarises` | backend/app/llm/providers/openai.py:210-223 | the final chunk has no text and carries the finish reason and identities all payloads agree on, the requested model if none was reported, and the last usage |
| `OpenAiStream.FinalReason` | backend/app/llm/providers/openai.py:476-487 | when the stream does not fail some payload gave a finish reason, and the final chunk's is Stop for stop, Length for length, ContentFilter for content_filter and Unknown for any other text that is accepted |
| `OpenAiStream.FinalUsage` | backend/app/llm/providers/openai.py:489-508 | the final chunk's input, output and total counts are the integers under prompt_tokens, completion_tokens and total_tokens of the last usage reported, or there was none |
| `OpenAiStream.FailureIs` | backend/app/llm/providers/openai.py:195-286 | a stream that fails was read to its end and fails as the event source did, or else is an invalid response |
| `OpenAiStream.ToolCallsAreRefused` | backend/app/llm/providers/openai.py:250-274 | a tool call in a delta or as a finish reason is refused |
| `MockProvider.Mock.RecordRequest` | backend/app/llm/providers/mock.py:87-91 | the request is recorded and numbered |
| `MockProvider.Mock.Generate` | backend/app/llm/providers/mock.py:64-76 | the request is recorded; the configured error, or the whole response: text, provider, model, finish reason, no usage, numbered request id |
| `MockProvider.Mock.StreamResponse` | backend/app/llm/providers/mock.py:124-155 | the same stream contract; the final chunk has the length over eight rounded up as its number, the reason Stop and no usage; the slices rejoin to the text generate returns; all chunks carry the provider, the model and the request id |
| `MockProvider.RequestIdIs` | backend/app/llm/providers/mock.py:87-91 | a request id is the prefix and the request's number in at least six digits |
| `ChatStream.RunStreamEvents` | backend/app/services/chat.py:65-106 | the loop with its early return yields the specified events |
| `ChatStream.StreamEventsShape` | backend/app/services/chat.py:65-106 | given the provider contract: a chunk event per chunk with its text and names, numbered on, then a done event with the next number and the final chunk's names, reason and usage exactly when the provider did not fail |
| `ChatStream.ServeStream` | backend/app/api/v1/routes/chat.py:59-115 | the two coroutines driven to the end send the specified events |
| `ChatStream.ResponseShape` | backend/app/api/v1/routes/chat.py:59-115 | a response that starts is a chunk event per chunk, numbered from 0, then exactly one done event with the final chunk's names, reason and usage or one error event with the failure's code, message and delay; a failure before the first event starts no response |
| `ChatStream.MissingFinalIsInvalid` | backend/app/services/chat.py:65-106 | an upstream without a final chunk ends as an invalid response, or with its own failure |
| `ChatStream.OtherRequestIsStopped` | backend/app/api/v1/routes/chat.py:88-115 | an event of another request is not sent: the response ends there with an internal error |
| `Pipeline.FrameIs` | backend/app/api/v1/routes/chat.py:140-146 | the text sent for an event: its kind's name, its JSON, a blank line |
| `Pipeline.CuttingDoesNotMatter` | backend/app/llm/http/sse.py:172-188 | as long as the guard does not trip, what the client is sent depends on the provider's text, not on how the network cuts it |
| `Pipeline.ClientReadsProviderText` | backend/app/api/v1/routes/chat.py:88-146 | end to end, as long as neither guard trips: a client that parses the response, cut anywhere, recovers exactly the events sent: a chunk event for each content of the longest accepted prefix of the provider's text, in order, then a done event with the agreed reason and last usage exactly when the provider's stream completes, or the error event of an invalid response |
| `Pipeline.EveryResponseIsReadable` | backend/app/api/v1/routes/chat.py:140-146 | for every response that starts there are a codec and a client that recovers exactly the events sent |

## Left out

- The UTF-8 decoder of the parser and its lock on one kind of chunk: the model starts from decoded text.
- JSON encoding and decoding and pydantic validation: arbitrary functions; a client's decoder is assumed to undo the
  encoder on the events that are sent, and the encoder to print each of them as an object on one line.
- The model's answer brings its token counts under the domain's names; the provider's own names for them are mapped in
  `OpenAiStream` only.
- `created_at` of stream events, and the mapping of exceptions to codes and messages, which is an arbitrary function.
- The DeepSeek provider, whose loop is the OpenAI one with one more refused finish reason.
- HTTP clients, headers, status codes, retry-after parsing, settings, registry, factory and bootstrap.
- Transport errors in the middle of a provider's body appear in `OpenAiStream` as the way the event source ends, and not
  in `Pipeline`, where the body is read to its end.
- SQLAlchemy, asyncpg and Alembic. In particular `onupdate=func.now()` on `updated_at`, which takes effect when a row
  changes while `updated_at` does not: the model writes exactly what the repositories assign.
- The size of 64-bit sequence columns and 32-bit token columns: numbers are unbounded.
- Failures and cancellation inside `commit`, `rollback`, `aclose` and the closing of a session, and the database
  manager's own rollback: the row lock, atomic commits and working session calls are taken as given.
- Collisions of identifiers: a drawn identifier is assumed not to be in a table (uuid4).
- Time zones and the clock: times are integers given from outside, in any order.
- Reads that return one conversation, lists of conversations, pending turns or a turn by key, and the view objects.
- The stateless chat endpoint without streaming, and the `/system` endpoints.
