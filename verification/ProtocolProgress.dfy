/** When a chat call gets on: exactly when its first transaction succeeds, and that a call nobody disturbs returns. */
module ProtocolProgress {
  import opened Prelude
  import opened Text
  import opened Aggregate
  import opened AggregateInvariant
  import opened RoundTrip
  import opened Mappers
  import opened Permutations
  import opened Store
  import opened Operations
  import opened Transactions
  import opened ContextBuilder
  import opened Representation
  import opened Refinement
  import opened History
  import opened Protocol
  import opened ProtocolInvariant
  import opened ProtocolSteps
  import opened ProtocolSafety

  /** The conversation takes a new turn for this command at this time. */
  predicate Startable(aggs: Aggregates, command: ChatCommand, at: Time) {
    command.conversationId in aggs && Accepts(aggs[command.conversationId], StartOf(command, 0, 0, at))
  }

  /** The guard of a start does not look at the identifiers drawn. */
  function StartOf(command: ChatCommand, turnId: Id, messageId: Id, at: Time): Command {
    Start(turnId, messageId, command.content, Some(command.requestId), command.key, at)
  }

  /** Why a start is refused. */
  function RefusalOf(aggs: Aggregates, command: ChatCommand, at: Time): TxError {
    if command.conversationId !in aggs then NotFound
    else
      var c := aggs[command.conversationId];
      if !Loadable(c) then Domain(InvalidValue)
      else if c.status == Archived then Domain(ConversationArchived)
      else if at < c.updatedAt then Domain(InvalidValue)
      else if Blank(command.content) then Domain(MessageContent)
      else if !(Fits(Some(command.requestId), 128) && Fits(command.key, 255) &&
                Apart(Some(command.requestId), command.key))
      then Domain(InvalidValue)
      else Domain(IdempotencyConflict)
  }

  /** What the caller of a refused start gets. */
  function RefusedWith(error: TxError): Outcome {
    match error
    case Domain(ConversationArchived) => Refused(Conflict("conversation_archived"))
    case Domain(IdempotencyConflict) => Refused(Conflict("idempotency_conflict"))
    case _ => Refused(CallError.Other(error))
  }

  lemma {:induction false} StartsInMemory(aggs: Aggregates, command: ChatCommand, turnId: Id, messageId: Id, at: Time)
    requires command.conversationId in aggs ==> AggregateOk(aggs, command.conversationId)
    ensures var (aggs', r) := InMemory(aggs, command.conversationId, StartOf(command, turnId, messageId, at));
            if Startable(aggs, command, at) then r.Ok? else r == Err(RefusalOf(aggs, command, at)) && aggs' == aggs
  {
    if command.conversationId in aggs {
      StartOutcome(aggs[command.conversationId], StartOf(command, turnId, messageId, at));
      AcceptedIff(aggs[command.conversationId], StartOf(command, turnId, messageId, at));
    }
  }

  lemma {:induction false} OpenedInMemory(aggs: Aggregates, command: ChatCommand, turnId: Id, messageId: Id, at: Time)
    requires Startable(aggs, command, at) && AggregateOk(aggs, command.conversationId)
    ensures var (aggs', r) := InMemory(aggs, command.conversationId, StartOf(command, turnId, messageId, at));
            var t := Opened(aggs[command.conversationId], StartOf(command, turnId, messageId, at));
            r == Ok(Some(t)) && command.conversationId in aggs' &&
            var c := aggs'[command.conversationId];
            c.id == command.conversationId && c.status == Active && c.updatedAt == at && c.turns != [] &&
            c.nextMessage == t.user.sequence + 1 &&
            c.turns[|c.turns| - 1] == t && c.messages != [] && c.messages[|c.messages| - 1] == t.user
  {
    var c := aggs[command.conversationId];
    StartOutcome(c, StartOf(command, turnId, messageId, at));
    AcceptedIff(c, StartOf(command, turnId, messageId, at));
    var c' := Apply(c, StartOf(command, turnId, messageId, at)).value;
    assert NormTurns(c'.turns)[|c.turns|] == NormTurn(c'.turns[|c.turns|]);
  }

  /** The rows of a started turn. */
  predicate StartedRows(db: Tables, command: ChatCommand, turnId: Id, messageId: Id, at: Time) {
    && command.conversationId in db.conversations && turnId in db.turns && messageId in db.messages
    && var root, row, message := db.conversations[command.conversationId], db.turns[turnId], db.messages[messageId];
    && root.status == "active" && root.updatedAt == at && root.nextSequence == message.sequence + 1
    && row.conversationId == command.conversationId && row.status == "pending"
    && row.requestId == Some(Strip(command.requestId))
    && row.key == (if command.key == None then None else Some(Strip(command.key.value)))
    && row.createdAt == at && row.updatedAt == at && row.completedAt == None
    && row.provider == None && row.model == None && row.finish == None && row.errorCode == None
    && message.conversationId == command.conversationId && message.turnId == turnId && message.role == "user"
    && message.content == command.content && message.createdAt == at
  }

  lemma {:induction false} StartedIsInRows(db: Tables, aggs: Aggregates, command: ChatCommand, t: Turn, at: Time)
    requires Represents(db, aggs) && command.conversationId in aggs
    requires var c := aggs[command.conversationId];
             c.status == Active && c.updatedAt == at && c.turns != [] && c.turns[|c.turns| - 1] == t &&
             c.nextMessage == t.user.sequence + 1 && c.messages != [] && c.messages[|c.messages| - 1] == t.user
    requires t.conversationId == command.conversationId && t.status == Pending && t.createdAt == at && t.updatedAt == at
    requires t.requestId == StripText(Some(command.requestId)) && t.key == StripText(command.key)
    requires t.completedAt == None && t.provider == None && t.model == None && t.finish == None && t.errorCode == None
    requires t.user == Message(t.user.id, t.conversationId, t.id, Aggregate.User, command.content, t.user.sequence, at)
    ensures StartedRows(db, command, t.id, t.user.id, at)
  {
    var c := aggs[command.conversationId];
    assert TurnsStored(db.turns, c) && MessagesStored(db.messages, c);
    assert TurnStored(db.turns, c.turns[|c.turns| - 1]);
    assert MessageStored(db.messages, c.messages[|c.messages| - 1]);
  }

  /** A transaction that leaves the aggregates alone leaves the tables alone. */
  lemma {:induction false} NothingWritten(s: State, tx: Tx)
    requires Safe(s) && TxFits(s.db, tx) && InMemory(s.aggs, tx.cid, tx.cmd).0 == s.aggs
    ensures RunTx(s, tx).db == s.db
  {
    TxKeepsStore(s, tx);
    RepresentsUnique(RunTx(s, tx).db, s.db, s.aggs);
  }

  /** What a step with a transaction does. */
  lemma {:induction false} TxStepIs(s: State, a: Action, tx: Tx)
    requires Safe(s) && !a.Create? && !a.ArchiveCall? && !a.Call? && Enabled(s, a)
    requires TxOf(s.callers[a.caller], a) == Some(tx)
    ensures TxFits(s.db, tx)
    ensures var s' := Next(s, a);
            s'.db == RunTx(s, tx).db && s'.aggs == InMemory(s.aggs, tx.cid, tx.cmd).0 && Represents(s'.db, s'.aggs) &&
            s'.limits == s.limits && |s'.callers| == |s.callers| &&
            s'.callers[a.caller] == AfterTx(s.callers[a.caller], a, InMemory(s.aggs, tx.cid, tx.cmd).1)
    ensures Next(s, a).aggs == s.aggs ==> Next(s, a).db == s.db
  {
    TxKeepsStore(s, tx);
    if Next(s, a).aggs == s.aggs {
      NothingWritten(s, tx);
    }
  }

  lemma {:induction false} RefusedCaller(aggs: Aggregates, p: Caller, a: Action, tx: Tx)
    requires a.StartPending? && TxOf(p, a) == Some(tx) && !Startable(aggs, p.command, a.at)
    requires p.command.conversationId in aggs ==> AggregateOk(aggs, p.command.conversationId)
    ensures InMemory(aggs, tx.cid, tx.cmd).0 == aggs
    ensures AfterTx(p, a, InMemory(aggs, tx.cid, tx.cmd).1) ==
            p.(stage := Done(RefusedWith(RefusalOf(aggs, p.command, a.at))))
  {
    StartsInMemory(aggs, p.command, a.turnId, a.messageId, a.at);
    RefusalIs(RefusalOf(aggs, p.command, a.at));
  }

  lemma {:induction false} RefusalIs(error: TxError)
    ensures Refused(Refusal(error)) == RefusedWith(error)
  {
  }

  lemma {:induction false} StartRefused(s: State, a: Action)
    requires Safe(s) && a.StartPending? && Enabled(s, a)
    requires !Startable(s.aggs, s.callers[a.caller].command, a.at)
    ensures var p := s.callers[a.caller];
            Next(s, a).callers[a.caller] == p.(stage := Done(RefusedWith(RefusalOf(s.aggs, p.command, a.at)))) &&
            Next(s, a).db == s.db
  {
    var p := s.callers[a.caller];
    assert p.command.conversationId in s.aggs ==> AggregateOk(s.aggs, p.command.conversationId);
    var tx := TxOf(p, a).value;
    RefusedCaller(s.aggs, p, a, tx);
    TxStepIs(s, a, tx);
  }

  lemma {:induction false} OpenedRows(aggs: Aggregates, db': Tables, command: ChatCommand, turnId: Id, messageId: Id,
                                      at: Time)
    requires Startable(aggs, command, at) && AggregateOk(aggs, command.conversationId)
    requires Represents(db', InMemory(aggs, command.conversationId, StartOf(command, turnId, messageId, at)).0)
    ensures var (aggs', r) := InMemory(aggs, command.conversationId, StartOf(command, turnId, messageId, at));
            r.Ok? && r.value.Some? && r.value.value.id == turnId && r.value.value.user.id == messageId &&
            command.conversationId in aggs' && aggs'[command.conversationId].status == Active &&
            aggs'[command.conversationId].updatedAt == at
    ensures StartedRows(db', command, turnId, messageId, at)
  {
    OpenedInMemory(aggs, command, turnId, messageId, at);
    var cmd := StartOf(command, turnId, messageId, at);
    StartedIsInRows(db', InMemory(aggs, command.conversationId, cmd).0, command,
                    Opened(aggs[command.conversationId], cmd), at);
  }

  lemma {:induction false} StartOpens(s: State, a: Action)
    requires Safe(s) && a.StartPending? && Enabled(s, a)
    requires Startable(s.aggs, s.callers[a.caller].command, a.at)
    ensures var p := s.callers[a.caller];
            var s' := Next(s, a);
            s'.callers[a.caller] == p.(turn := s'.callers[a.caller].turn, stage := Started) &&
            s'.callers[a.caller].turn.Some? && s'.callers[a.caller].turn.value.id == a.turnId &&
            s'.callers[a.caller].turn.value.user.id == a.messageId &&
            StartedRows(s'.db, p.command, a.turnId, a.messageId, a.at) &&
            p.command.conversationId in s'.aggs &&
            s'.aggs[p.command.conversationId].status == Active &&
            s'.aggs[p.command.conversationId].updatedAt == a.at
  {
    var p := s.callers[a.caller];
    assert AggregateOk(s.aggs, p.command.conversationId);
    TxStepIs(s, a, TxOf(p, a).value);
    OpenedRows(s.aggs, Next(s, a).db, p.command, a.turnId, a.messageId, a.at);
  }

  /** Main result: the first transaction gives the call its turn exactly when the conversation exists and is active, the
      time does not go back, content and metadata are usable, and no turn has the trimmed key; then the rows hold what
      the command said. Otherwise the call is refused for the first reason that applies and nothing is written. */
  lemma {:induction false} StartsIff(s: State, a: Action)
    requires Reachable(s) && a.StartPending? && Enabled(s, a)
    ensures var p := s.callers[a.caller];
            var s' := Next(s, a);
            if Startable(s.aggs, p.command, a.at)
            then s'.callers[a.caller] == p.(turn := s'.callers[a.caller].turn, stage := Started) &&
                 s'.callers[a.caller].turn.Some? && s'.callers[a.caller].turn.value.id == a.turnId &&
                 s'.callers[a.caller].turn.value.user.id == a.messageId &&
                 StartedRows(s'.db, p.command, a.turnId, a.messageId, a.at) &&
                 p.command.conversationId in s'.aggs &&
                 s'.aggs[p.command.conversationId].status == Active &&
                 s'.aggs[p.command.conversationId].updatedAt == a.at
            else s'.callers[a.caller] == p.(stage := Done(RefusedWith(RefusalOf(s.aggs, p.command, a.at)))) &&
                 s'.db == s.db
  {
    ReachableIsSafe(s);
    if Startable(s.aggs, s.callers[a.caller].command, a.at) {
      StartOpens(s, a);
    } else {
      StartRefused(s, a);
    }
  }

  lemma {:induction false} NextIsReachable(s: State, a: Action)
    requires Reachable(s)
    ensures Reachable(Next(s, a))
  {
    var limits, actions :| s == RunAll(Initial(limits), actions);
    RunSnoc(Initial(limits), actions, a);
  }

  lemma {:induction false} RunSnoc(s: State, actions: seq<Action>, a: Action)
    ensures RunAll(s, actions + [a]) == Next(RunAll(s, actions), a)
    decreases |actions|
  {
    if actions == [] {
      assert [] + [a] == [a] && [a][1..] == [];
    } else {
      RunSnoc(Next(s, actions[0]), actions[1..], a);
      assert (actions + [a])[1..] == actions[1..] + [a];
    }
  }

  /** The limit of a history read, after clamping, is one the repository takes. */
  predicate Readable(limits: Limits, command: ChatCommand) {
    0 < command.limit && 0 < limits.messages && (command.limit <= 100 || limits.messages <= 100)
  }

  function Smaller(a: int, b: nat): int {
    if a < b then a else b
  }

  /** Main result: the history read gives the last messages of completed turns, or stops the call for its limit. */
  lemma {:induction false} ReadsIff(s: State, a: Action)
    requires Reachable(s) && a.ReadHistory? && Enabled(s, a)
    ensures var p := s.callers[a.caller];
            p.command.conversationId in s.aggs &&
            Next(s, a) ==
            s.(callers := s.callers[a.caller := p.(stage :=
                if !Readable(s.limits, p.command) then Done(Stopped)
                else HistoryRead(LastK(CompletedMessages(s.aggs[p.command.conversationId]),
                                       Smaller(p.command.limit, s.limits.messages))))])
  {
    ReachableIsSafe(s);
    var p := s.callers[a.caller];
    assert CallerOk(s.aggs, p);
    var bound := BoundedLimit(s.limits.messages, p.command.limit);
    if bound.Ok? {
      HistoryIsRecent(s.db, s.aggs, p.command.conversationId, a.rows, bound.value);
    }
  }

  /** The request is built exactly when it passes its schema and the message fits; it is the one that all completed
      messages would give. */
  lemma {:induction false} BuildsStep(s: State, a: Action, completed: seq<Message>)
    requires Reachable(s) && a.BuildRequest? && Enabled(s, a) && Readable(s.limits, s.callers[a.caller].command)
    requires StrictlySorted(MessageSequenceOf, completed)
    requires var p := s.callers[a.caller];
             p.stage.history == LastK(completed, Smaller(p.command.limit, s.limits.messages))
    ensures var p := s.callers[a.caller];
            var p' := Next(s, a).callers[a.caller];
            p.turn.Some? && Next(s, a).aggs == s.aggs && Next(s, a).db == s.db && Next(s, a).limits == s.limits &&
            p' == p.(stage := p'.stage) &&
            if a.valid && |p.command.content| <= s.limits.characters
            then p'.stage.Generating? &&
                 Next(s, a).generations == s.generations + [Generation(a.caller, p'.stage.request)] &&
                 Build(s.limits.messages, s.limits.characters, completed, p.turn.value.user, p.command.requestId,
                       p.command.limit, p.command.model, true) == Ok(p'.stage.request)
            else p'.stage == Failing("conversation_context_invalid", None, p.command.model)
  {
    ReachableIsSafe(s);
    var p := s.callers[a.caller];
    assert CallerOk(s.aggs, p);
    var t := p.turn.value;
    UserIsOwn(s.aggs, p.command, t);
    BuildsEither(s.limits, p, t.user, completed, a.valid);
  }

  lemma {:induction false} UserIsOwn(aggs: Aggregates, command: ChatCommand, t: Turn)
    requires AggregatesOk(aggs) && HasTurn(aggs, command, t)
    ensures t.user.role == Aggregate.User && t.user.content == command.content
  {
    OwnTurnIs(aggs, command, t);
    assert TurnEvolves(t, aggs[t.conversationId].turns[t.sequence - 1]);
  }

  lemma {:induction false} BuildsEither(limits: Limits, p: Caller, user: Message, completed: seq<Message>, valid: bool)
    requires p.stage.HistoryRead? && p.turn.Some? && p.turn.value.user == user && user.role == Aggregate.User
    requires user.content == p.command.content && Readable(limits, p.command)
    requires StrictlySorted(MessageSequenceOf, completed)
    requires p.stage.history == LastK(completed, Smaller(p.command.limit, limits.messages))
    ensures RequestFor(limits, p, valid).Ok? <==> valid && |p.command.content| <= limits.characters
    ensures valid ==> RequestFor(limits, p, valid) ==
                      Build(limits.messages, limits.characters, completed, user, p.command.requestId, p.command.limit,
                            p.command.model, true)
  {
    var limit := Smaller(p.command.limit, limits.messages);
    assert BoundedLimit(limits.messages, p.command.limit) == Ok(limit);
    BuildsIff(limits.messages, limits.characters, p.stage.history, user, p.command.requestId, limit, p.command.model,
              valid);
    CutHistoryIsEnough(limits.messages, limits.characters, completed, user, p.command.requestId, limit,
                       p.command.model, valid, limit);
  }

  function CompletionOf(answer: Answer, at: Time): Completion {
    Completion(answer.text, Some(answer.provider), Some(answer.model), Some(answer.finish), answer.usage, at)
  }

  lemma {:induction false} RespondProceeds(s: State, a: Action)
    requires a.Respond? && Enabled(s, a) && !Blank(a.answer.text)
    ensures var p := s.callers[a.caller];
            Next(s, a).callers[a.caller] == p.(stage := Answered(CompletionOf(a.answer, a.at)))
    ensures Next(s, a).aggs == s.aggs
  {
  }

  /** The steps of one call, in order, each possible when it is taken. */
  predicate Undisturbed(s: State, start: Action, read: Action, build: Action, respond: Action, finish: Action) {
    var s1 := Next(s, start);
    var s2 := Next(s1, read);
    var s3 := Next(s2, build);
    var s4 := Next(s3, respond);
    && start.StartPending? && read.ReadHistory? && build.BuildRequest? && respond.Respond? && finish.Finish?
    && start.caller == read.caller == build.caller == respond.caller == finish.caller
    && Enabled(s, start) && Enabled(s1, read) && Enabled(s2, build) && Enabled(s3, respond) && Enabled(s4, finish)
  }

  /** The model's answer has text and metadata that fits. */
  predicate GoodAnswer(a: Answer) {
    !Blank(a.text) && Fits(Some(a.provider), 64) && Fits(Some(a.model), 255) && Fits(Some(a.finish), 64)
  }

  /** The call is at this stage, and its conversation still as its start left it. */
  predicate StandsAt(s: State, k: nat, command: ChatCommand, limits: Limits, at: Time) {
    && s.limits == limits && k < |s.callers| && s.callers[k].command == command
    && command.conversationId in s.aggs
    && s.aggs[command.conversationId].status == Active && s.aggs[command.conversationId].updatedAt == at
  }

  lemma {:induction false} Asked(s: State, read: Action, build: Action, command: ChatCommand, at: Time)
    requires Reachable(s) && Readable(s.limits, command) && read.ReadHistory? && build.BuildRequest? && build.valid
    requires read.caller == build.caller && Enabled(s, read) && Enabled(Next(s, read), build)
    requires StandsAt(s, read.caller, command, s.limits, at)
    requires |command.content| <= s.limits.characters
    ensures var s2 := Next(Next(s, read), build);
            Reachable(s2) && StandsAt(s2, read.caller, command, s.limits, at) &&
            s2.callers[read.caller].stage.Generating?
  {
    ReadsIff(s, read);
    NextIsReachable(s, read);
    ReachableIsSafe(s);
    var completed := CompletedMessages(s.aggs[command.conversationId]);
    assert AggregateOk(s.aggs, command.conversationId);
    CompletedSorted(s.aggs[command.conversationId]);
    BuildsStep(Next(s, read), build, completed);
    NextIsReachable(Next(s, read), build);
  }

  lemma {:induction false} Finished(s: State, respond: Action, finish: Action, command: ChatCommand, at: Time)
    requires Reachable(s) && respond.Respond? && finish.Finish? && respond.caller == finish.caller
    requires Enabled(s, respond) && Enabled(Next(s, respond), finish)
    requires StandsAt(s, respond.caller, command, s.limits, at)
    requires GoodAnswer(respond.answer) && at <= respond.at
    ensures Next(Next(s, respond), finish).callers[respond.caller].stage ==
            Done(Returned(CompletionOf(respond.answer, respond.at)))
  {
    var s1 := Next(s, respond);
    RespondProceeds(s, respond);
    NextIsReachable(s, respond);
    ReachableIsSafe(s1);
    RowIsActive(s1, command.conversationId);
    FinishesIff(s1, finish);
  }

  /** Main result: a call that nobody disturbs, on a conversation that takes its turn, with a message within the
      budget, a model that answers and a clock that does not go back, returns that answer. */
  lemma {:induction false} UndisturbedCallReturns(s: State, start: Action, read: Action, build: Action, respond: Action,
                                                  finish: Action)
    requires Reachable(s) && Undisturbed(s, start, read, build, respond, finish)
    requires var command := s.callers[start.caller].command;
             Startable(s.aggs, command, start.at) && Readable(s.limits, command) &&
             |command.content| <= s.limits.characters
    requires build.valid && GoodAnswer(respond.answer) && start.at <= respond.at
    ensures var end := Next(Next(Next(Next(Next(s, start), read), build), respond), finish);
            end.callers[start.caller].stage == Done(Returned(CompletionOf(respond.answer, respond.at)))
  {
    var command := s.callers[start.caller].command;
    StartsIff(s, start);
    NextIsReachable(s, start);
    Asked(Next(s, start), read, build, command, start.at);
    Finished(Next(Next(Next(s, start), read), build), respond, finish, command, start.at);
  }

  lemma {:induction false} RowIsActive(s: State, cid: Id)
    requires RootTable(s.db.conversations, s.aggs) && cid in s.aggs
    ensures cid in s.db.conversations
    ensures s.db.conversations[cid].updatedAt == s.aggs[cid].updatedAt
    ensures s.aggs[cid].status == Active ==> s.db.conversations[cid].status == "active"
  {
  }

  // ---------------------------------------------------------------------------------------------------------
  // The last transaction.

  /** A row that says a failure or a cancellation at this time is taken: the conversation loads, and time does not go
      back. */
  predicate Closable(row: ConversationRow, at: Time) {
    row.updatedAt <= at && (row.status == "active" || row.archivedAt == Some(row.updatedAt))
  }

  predicate FailedRow(row: TurnRow, code: string, provider: Option<string>, model: Option<string>, at: Time) {
    && row.status == "failed" && row.errorCode == Some(Strip(code))
    && row.provider == (if provider == None then None else Some(Strip(provider.value)))
    && row.model == (if model == None then None else Some(Strip(model.value)))
    && row.completedAt == Some(at) && row.updatedAt == at
  }

  predicate CancelledRow(row: TurnRow, at: Time) {
    row.status == "cancelled" && row.completedAt == Some(at) && row.updatedAt == at
  }

  lemma {:induction false} ClosableIs(db: Tables, aggs: Aggregates, cid: Id, at: Time)
    requires RootTable(db.conversations, aggs) && cid in aggs && AggregateOk(aggs, cid)
    ensures cid in db.conversations
    ensures Closable(db.conversations[cid], at) <==> Loadable(aggs[cid]) && aggs[cid].updatedAt <= at
  {
  }

  /** The caller's turn, pending, at its place. */
  lemma {:induction false} PendingPlace(aggs: Aggregates, p: Caller, t: Turn)
    requires AggregatesOk(aggs) && CallerOk(aggs, p) && p.turn == Some(t) && (p.stage.Failing? || p.stage.Cancelling?)
    ensures t.conversationId == p.command.conversationId && t.conversationId in aggs && Inv(aggs[t.conversationId])
    ensures 1 <= t.sequence <= |aggs[t.conversationId].turns|
    ensures var now := aggs[t.conversationId].turns[t.sequence - 1]; now.id == t.id && now.status == Pending
  {
    assert AggregateOk(aggs, t.conversationId);
    assert TurnEvolves(t, aggs[t.conversationId].turns[t.sequence - 1]);
  }

  lemma {:induction false} ClosedRowsAre(db: Tables, aggs: Aggregates, cid: Id, i: nat)
    requires TurnTable(db.turns, aggs)
    ensures cid in aggs && i < |aggs[cid].turns| ==>
              aggs[cid].turns[i].id in db.turns && db.turns[aggs[cid].turns[i].id] == TurnToRow(aggs[cid].turns[i])
  {
    if cid in aggs && i < |aggs[cid].turns| {
      assert TurnsStored(db.turns, aggs[cid]);
      assert TurnStored(db.turns, aggs[cid].turns[i]);
    }
  }

  lemma {:induction false} FailsInMemory(aggs: Aggregates, cid: Id, i: nat, code: string, provider: Option<string>,
                                         model: Option<string>, at: Time)
    requires cid in aggs && Inv(aggs[cid]) && i < |aggs[cid].turns| && aggs[cid].turns[i].status == Pending
    ensures var t := aggs[cid].turns[i];
            var aggs' := InMemory(aggs, cid, Fail(t.id, Some(code), provider, model, at)).0;
            if Loadable(aggs[cid]) && aggs[cid].updatedAt <= at &&
               Fits(Some(code), 128) && Fits(provider, 64) && Fits(model, 255)
            then cid in aggs' && i < |aggs'[cid].turns| && aggs'[cid].turns[i].id == t.id &&
                 FailedRow(TurnToRow(aggs'[cid].turns[i]), code, provider, model, at)
            else aggs' == aggs
  {
    FailOutcome(aggs[cid], Fail(aggs[cid].turns[i].id, Some(code), provider, model, at), i);
  }

  lemma {:induction false} CancelsInMemory(aggs: Aggregates, cid: Id, i: nat, at: Time)
    requires cid in aggs && Inv(aggs[cid]) && i < |aggs[cid].turns| && aggs[cid].turns[i].status == Pending
    ensures var t := aggs[cid].turns[i];
            var aggs' := InMemory(aggs, cid, Cancel(t.id, at)).0;
            if Loadable(aggs[cid]) && aggs[cid].updatedAt <= at
            then cid in aggs' && i < |aggs'[cid].turns| && aggs'[cid].turns[i].id == t.id &&
                 CancelledRow(TurnToRow(aggs'[cid].turns[i]), at)
            else aggs' == aggs
  {
    CancelOutcome(aggs[cid], Cancel(aggs[cid].turns[i].id, at), i);
  }

  lemma {:induction false} FailureRow(db: Tables, aggs: Aggregates, db': Tables, p: Caller, t: Turn, at: Time)
    requires AggregatesOk(aggs) && RootTable(db.conversations, aggs)
    requires CallerOk(aggs, p) && p.turn == Some(t) && p.stage.Failing?
    requires TurnTable(db'.turns, InMemory(aggs, p.command.conversationId,
                                           Fail(t.id, Some(p.stage.code), p.stage.provider, p.stage.model, at)).0)
    ensures p.command.conversationId in db.conversations
    ensures if Closable(db.conversations[p.command.conversationId], at) &&
               Fits(Some(p.stage.code), 128) && Fits(p.stage.provider, 64) && Fits(p.stage.model, 255)
            then t.id in db'.turns && FailedRow(db'.turns[t.id], p.stage.code, p.stage.provider, p.stage.model, at)
            else InMemory(aggs, p.command.conversationId,
                          Fail(t.id, Some(p.stage.code), p.stage.provider, p.stage.model, at)).0 == aggs
  {
    PendingPlace(aggs, p, t);
    FailureRowAt(db, aggs, db', p.command.conversationId, t.sequence - 1, t.id, p.stage.code, p.stage.provider,
                 p.stage.model, at);
  }

  lemma {:induction false} FailureRowAt(db: Tables, aggs: Aggregates, db': Tables, cid: Id, i: nat, id: Id,
                                        code: string, provider: Option<string>, model: Option<string>, at: Time)
    requires AggregatesOk(aggs) && RootTable(db.conversations, aggs) && cid in aggs
    requires i < |aggs[cid].turns| && aggs[cid].turns[i].id == id && aggs[cid].turns[i].status == Pending
    requires TurnTable(db'.turns, InMemory(aggs, cid, Fail(id, Some(code), provider, model, at)).0)
    ensures cid in db.conversations
    ensures if Closable(db.conversations[cid], at) &&
               Fits(Some(code), 128) && Fits(provider, 64) && Fits(model, 255)
            then id in db'.turns && FailedRow(db'.turns[id], code, provider, model, at)
            else InMemory(aggs, cid, Fail(id, Some(code), provider, model, at)).0 == aggs
  {
    assert AggregateOk(aggs, cid);
    ClosableIs(db, aggs, cid, at);
    FailsInMemory(aggs, cid, i, code, provider, model, at);
    ClosedRowsAre(db', InMemory(aggs, cid, Fail(id, Some(code), provider, model, at)).0, cid, i);
  }

  lemma {:induction false} CancelRow(db: Tables, aggs: Aggregates, db': Tables, p: Caller, t: Turn, at: Time)
    requires AggregatesOk(aggs) && RootTable(db.conversations, aggs)
    requires CallerOk(aggs, p) && p.turn == Some(t) && p.stage.Cancelling?
    requires TurnTable(db'.turns, InMemory(aggs, p.command.conversationId, Cancel(t.id, at)).0)
    ensures p.command.conversationId in db.conversations
    ensures if Closable(db.conversations[p.command.conversationId], at)
            then t.id in db'.turns && CancelledRow(db'.turns[t.id], at)
            else InMemory(aggs, p.command.conversationId, Cancel(t.id, at)).0 == aggs
  {
    PendingPlace(aggs, p, t);
    CancelRowAt(db, aggs, db', p.command.conversationId, t.sequence - 1, t.id, at);
  }

  lemma {:induction false} CancelRowAt(db: Tables, aggs: Aggregates, db': Tables, cid: Id, i: nat, id: Id, at: Time)
    requires AggregatesOk(aggs) && RootTable(db.conversations, aggs) && cid in aggs
    requires i < |aggs[cid].turns| && aggs[cid].turns[i].id == id && aggs[cid].turns[i].status == Pending
    requires TurnTable(db'.turns, InMemory(aggs, cid, Cancel(id, at)).0)
    ensures cid in db.conversations
    ensures if Closable(db.conversations[cid], at)
            then id in db'.turns && CancelledRow(db'.turns[id], at)
            else InMemory(aggs, cid, Cancel(id, at)).0 == aggs
  {
    assert AggregateOk(aggs, cid);
    ClosableIs(db, aggs, cid, at);
    CancelsInMemory(aggs, cid, i, at);
    ClosedRowsAre(db', InMemory(aggs, cid, Cancel(id, at)).0, cid, i);
  }

  /** Main result: a failure is recorded, with its code and names, exactly when the conversation loads, time does not go
      back and the texts fit; otherwise nothing is written. Either way the call ends with that code. */
  lemma {:induction false} RecordsFailureIff(s: State, a: Action)
    requires Reachable(s) && a.RecordFailure? && Enabled(s, a)
    ensures var p := s.callers[a.caller];
            var s' := Next(s, a);
            p.turn.Some? && p.command.conversationId in s.db.conversations &&
            s'.callers[a.caller] == p.(stage := Done(GenerationFailed(p.stage.code))) &&
            if Closable(s.db.conversations[p.command.conversationId], a.at) &&
               Fits(Some(p.stage.code), 128) && Fits(p.stage.provider, 64) && Fits(p.stage.model, 255)
            then p.turn.value.id in s'.db.turns &&
                 FailedRow(s'.db.turns[p.turn.value.id], p.stage.code, p.stage.provider, p.stage.model, a.at)
            else s'.db == s.db
  {
    ReachableIsSafe(s);
    var p := s.callers[a.caller];
    assert CallerOk(s.aggs, p);
    TxStepIs(s, a, TxOf(p, a).value);
    FailureRow(s.db, s.aggs, Next(s, a).db, p, p.turn.value, a.at);
  }

  /** Main result: a cancellation is recorded exactly when the conversation loads and time does not go back; otherwise
      nothing is written. */
  lemma {:induction false} RecordsCancelIff(s: State, a: Action)
    requires Reachable(s) && a.RecordCancel? && Enabled(s, a)
    ensures var p := s.callers[a.caller];
            var s' := Next(s, a);
            p.turn.Some? && p.command.conversationId in s.db.conversations &&
            s'.callers[a.caller] == p.(stage := Done(CancelledCall)) &&
            if Closable(s.db.conversations[p.command.conversationId], a.at)
            then p.turn.value.id in s'.db.turns && CancelledRow(s'.db.turns[p.turn.value.id], a.at)
            else s'.db == s.db
  {
    ReachableIsSafe(s);
    var p := s.callers[a.caller];
    assert CallerOk(s.aggs, p);
    TxStepIs(s, a, TxOf(p, a).value);
    CancelRow(s.db, s.aggs, Next(s, a).db, p, p.turn.value, a.at);
  }

  /** A completion that is refused writes nothing. */
  lemma {:induction false} StoppedWritesNothing(s: State, a: Action)
    requires Reachable(s) && a.Finish? && Enabled(s, a) && Next(s, a).callers[a.caller].stage == Done(Stopped)
    ensures Next(s, a).db == s.db
  {
    ReachableIsSafe(s);
    var p := s.callers[a.caller];
    assert CallerOk(s.aggs, p);
    TxStepIs(s, a, TxOf(p, a).value);
  }
}
