/** Any number of ConversationChatService.complete calls, with archiving and creation in between, over one database.
    Each committed transaction is one step (get_for_update holds the row lock for the whole of it); a call that is
    between transactions is a caller with a stage. `aggs` records what the domain operations would have made of the
    aggregates had they never been stored: no step reads it. */
module Protocol {
  import opened Prelude
  import opened Text
  import opened Aggregate
  import opened AggregateInvariant
  import opened Mappers
  import opened Store
  import opened Transactions
  import opened LlmSchemas
  import opened ContextBuilder
  import opened Representation
  import opened Refinement

  type Usage = Aggregate.Usage

  /** The bounds the context builder was made with. */
  datatype Limits = Limits(messages: nat, characters: nat)

  /** `requestId` is the caller's or, when it gave none, the one drawn for it. */
  datatype ChatCommand = ChatCommand(
    conversationId: Id,
    content: string,
    requestId: string,
    key: Option<string>,
    limit: int,
    model: Option<string>)

  /** What the model answers. */
  datatype Answer = Answer(text: string, provider: string, model: string, finish: string, usage: Option<Usage>)

  /** What a refused start raises: a conflict with its code, or the error as it is. */
  datatype CallError = Conflict(code: string) | Other(error: TxError)

  /** How a call ends. Stopped: by an exception complete does not handle, or by cancellation outside generation. */
  datatype Outcome =
    | Refused(error: CallError)
    | Returned(answer: Completion)
    | GenerationFailed(code: string)
    | CancelledCall
    | Stopped

  datatype Stage =
    | Ready
    | Started
    | HistoryRead(history: seq<Message>)
    | Generating(request: LlmRequest)
    | Answered(completion: Completion)
    | Failing(code: string, provider: Option<string>, model: Option<string>)
    | Cancelling
    | Done(outcome: Outcome)

  /** `turn` is the pending turn the first transaction returned. */
  datatype Caller = Caller(command: ChatCommand, turn: Option<Turn>, stage: Stage)

  /** One call of llm_service.generate. */
  datatype Generation = Generation(caller: nat, request: LlmRequest)

  datatype State = State(
    limits: Limits,
    db: Tables,
    aggs: Aggregates,
    callers: seq<Caller>,
    generations: seq<Generation>)

  datatype Action =
    | Create(id: Id, title: Option<string>, at: Time)
    | ArchiveCall(cid: Id, scan: Scan, at: Time)
    | Call(command: ChatCommand)
    | StartPending(caller: nat, scan: Scan, turnId: Id, messageId: Id, at: Time)
    | ReadHistory(caller: nat, rows: seq<MessageRow>)
    | BuildRequest(caller: nat, valid: bool)
    | Respond(caller: nat, answer: Answer, at: Time)
    | RaiseError(caller: nat, code: string, provider: Option<string>)
    | CancelGeneration(caller: nat)
    | Finish(caller: nat, scan: Scan, messageId: Id)
    | RecordFailure(caller: nat, scan: Scan, at: Time)
    | RecordCancel(caller: nat, scan: Scan, at: Time)
    | LoseRecord(caller: nat)
    | Interrupt(caller: nat)

  /** A caller's action, and the stage it is taken in. */
  predicate StageFits(p: Caller, a: Action) {
    match a
    case Create(_, _, _) => false
    case ArchiveCall(_, _, _) => false
    case Call(_) => false
    case StartPending(_, _, _, _, _) => p.stage.Ready?
    case ReadHistory(_, _) => p.stage.Started?
    case BuildRequest(_, _) => p.stage.HistoryRead?
    case Respond(_, _, _) => p.stage.Generating?
    case RaiseError(_, _, _) => p.stage.Generating?
    case CancelGeneration(_) => p.stage.Generating?
    case Finish(_, _, _) => p.stage.Answered?
    case RecordFailure(_, _, _) => p.stage.Failing?
    case RecordCancel(_, _, _) => p.stage.Cancelling?
    case LoseRecord(_) => p.stage.Failing? || p.stage.Cancelling?
    case Interrupt(_) => !p.stage.Done? && !p.stage.Failing? && !p.stage.Cancelling?
  }

  /** The transaction an action runs, if any: conversation, rows scanned, command. */
  datatype Tx = Tx(cid: Id, scan: Scan, cmd: Command)

  function TxOf(p: Caller, a: Action): Option<Tx> {
    if a.StartPending? then
      Some(Tx(p.command.conversationId, a.scan,
              Start(a.turnId, a.messageId, p.command.content, Some(p.command.requestId), p.command.key, a.at)))
    else if p.turn == None then None
    else if a.Finish? && p.stage.Answered? then
      var c := p.stage.completion;
      Some(Tx(p.command.conversationId, a.scan,
              Complete(p.turn.value.id, a.messageId, c.content, c.provider, c.model, c.finish, c.usage, c.at)))
    else if a.RecordFailure? && p.stage.Failing? then
      Some(Tx(p.command.conversationId, a.scan,
              Fail(p.turn.value.id, Some(p.stage.code), p.stage.provider, p.stage.model, a.at)))
    else if a.RecordCancel? then
      Some(Tx(p.command.conversationId, a.scan, Cancel(p.turn.value.id, a.at)))
    else None
  }

  /** The rows scanned are those of the conversation, and drawn identifiers are new. */
  predicate TxFits(db: Tables, tx: Tx) {
    (tx.cid in db.conversations ==> Scans(db, tx.cid, tx.scan)) && FreshIds(db, tx.cmd)
  }

  predicate Enabled(s: State, a: Action) {
    match a
    case Create(_, _, _) => true
    case ArchiveCall(cid, scan, at) => TxFits(s.db, Tx(cid, scan, ArchiveAt(at)))
    case Call(_) => true
    case _ =>
      && a.caller < |s.callers| && StageFits(s.callers[a.caller], a)
      && (TxOf(s.callers[a.caller], a).Some? ==> TxFits(s.db, TxOf(s.callers[a.caller], a).value))
      && (a.ReadHistory? ==> SelectsCompleted(s.db, s.callers[a.caller].command.conversationId, a.rows))
  }

  // ---------------------------------------------------------------------------------------------------------
  // Where each step takes its caller.

  function Refusal(error: TxError): CallError {
    if error == Domain(ConversationArchived) then Conflict("conversation_archived")
    else if error == Domain(IdempotencyConflict) then Conflict("idempotency_conflict")
    else Other(error)
  }

  function AfterStart(p: Caller, r: Result<Option<Turn>, TxError>): Caller {
    match r
    case Err(e) => p.(stage := Done(Refused(Refusal(e))))
    case Ok(None) => p.(stage := Done(Stopped))
    case Ok(Some(t)) => p.(turn := Some(t), stage := Started)
  }

  /** bounded_limit and the repository's own bound on the limit raise outside any handler. */
  function AfterRead(limits: Limits, p: Caller, rows: seq<MessageRow>): Caller {
    match BoundedLimit(limits.messages, p.command.limit)
    case Err(_) => p.(stage := Done(Stopped))
    case Ok(limit) =>
      if !(1 <= limit <= 100) then p.(stage := Done(Stopped))
      else
        match MessagesFromRows(Recent(rows, limit))
        case Err(_) => p.(stage := Done(Stopped))
        case Ok(history) => p.(stage := HistoryRead(history))
  }

  function RequestFor(limits: Limits, p: Caller, valid: bool): Result<LlmRequest, BuildError>
    requires p.stage.HistoryRead? && p.turn.Some?
  {
    match BoundedLimit(limits.messages, p.command.limit)
    case Err(e) => Err(e)
    case Ok(limit) =>
      Build(limits.messages, limits.characters, p.stage.history, p.turn.value.user, p.command.requestId, limit,
            p.command.model, valid)
  }

  function AfterBuild(p: Caller, request: Result<LlmRequest, BuildError>): Caller {
    match request
    case Err(_) => p.(stage := Failing("conversation_context_invalid", None, p.command.model))
    case Ok(r) => p.(stage := Generating(r))
  }

  function AfterResponse(p: Caller, answer: Answer, at: Time): Caller {
    if Blank(answer.text) then
      p.(stage := Failing("provider_invalid_response", Some(answer.provider), Some(answer.model)))
    else
      p.(stage := Answered(Completion(answer.text, Some(answer.provider), Some(answer.model), Some(answer.finish),
                                      answer.usage, at)))
  }

  function AfterFinish(p: Caller, r: Result<Option<Turn>, TxError>): Caller {
    if r.Ok? && p.stage.Answered? then p.(stage := Done(Returned(p.stage.completion)))
    else p.(stage := Done(Stopped))
  }

  function Move(s: State, k: nat, p: Caller): State
    requires k < |s.callers|
  {
    s.(callers := s.callers[k := p])
  }

  function RunTx(s: State, tx: Tx): State {
    s.(db := Transact(s.db, tx.cid, tx.scan, tx.cmd).0, aggs := InMemory(s.aggs, tx.cid, tx.cmd).0)
  }

  /** The caller after a transaction that told it `r`. */
  function AfterTx(p: Caller, a: Action, r: Result<Option<Turn>, TxError>): Caller {
    if a.StartPending? then AfterStart(p, r)
    else if a.Finish? then AfterFinish(p, r)
    else if a.RecordFailure? && p.stage.Failing? then p.(stage := Done(GenerationFailed(p.stage.code)))
    else p.(stage := Done(CancelledCall))
  }

  /** A caller's step without a transaction that writes. */
  function Local(s: State, p: Caller, a: Action): Caller
    requires StageFits(p, a)
  {
    match a
    case ReadHistory(_, rows) => AfterRead(s.limits, p, rows)
    case BuildRequest(_, valid) => if p.turn == None then p else AfterBuild(p, RequestFor(s.limits, p, valid))
    case Respond(_, answer, at) => AfterResponse(p, answer, at)
    case RaiseError(_, code, provider) => p.(stage := Failing(code, provider, p.command.model))
    case CancelGeneration(_) => p.(stage := Cancelling)
    case LoseRecord(_) => p.(stage := Done(if p.stage.Failing? then GenerationFailed(p.stage.code) else CancelledCall))
    case _ => p.(stage := Done(Stopped))
  }

  function Generated(s: State, k: nat, p: Caller, a: Action): seq<Generation> {
    if a.BuildRequest? && p.stage.Generating? then s.generations + [Generation(k, p.stage.request)] else s.generations
  }

  function CallerStep(s: State, a: Action): State
    requires !a.Create? && !a.ArchiveCall? && !a.Call? && Enabled(s, a)
  {
    var p := s.callers[a.caller];
    match TxOf(p, a)
    case Some(tx) =>
      Move(RunTx(s, tx), a.caller, AfterTx(p, a, Transact(s.db, tx.cid, tx.scan, tx.cmd).1))
    case None =>
      var p' := Local(s, p, a);
      Move(s, a.caller, p').(generations := Generated(s, a.caller, p', a))
  }

  /** One step; an action that cannot happen now changes nothing. */
  function Next(s: State, a: Action): State {
    if !Enabled(s, a) then s
    else
      match a
      case Create(id, title, at) =>
        s.(db := CreateTx(s.db, id, title, at).0, aggs := CreateInMemory(s.aggs, id, title, at))
      case ArchiveCall(cid, scan, at) => RunTx(s, Tx(cid, scan, ArchiveAt(at)))
      case Call(command) => s.(callers := s.callers + [Caller(command, None, Ready)])
      case _ => CallerStep(s, a)
  }

  function RunAll(s: State, actions: seq<Action>): State
    decreases |actions|
  {
    if actions == [] then s else RunAll(Next(s, actions[0]), actions[1..])
  }

  function Initial(limits: Limits): State {
    State(limits, EMPTY, map[], [], [])
  }
}
