/** One call of ConversationChatService.complete among the others: the steps it takes itself, given its surroundings,
    and how it must end. */
module CallRun {
  import opened Prelude
  import opened Text
  import opened Aggregate
  import opened Mappers
  import opened Permutations
  import opened Store
  import opened Transactions
  import opened Operations
  import opened LlmSchemas
  import opened ContextBuilder
  import opened Representation
  import opened History
  import opened Protocol
  import opened ProtocolInvariant
  import opened ProtocolSafety
  import opened ProtocolProgress

  /** What llm_service.generate does: answers, raises an LLMException with its code and provider or any other
      exception, or is cancelled. */
  datatype LlmResult =
    | Answers(answer: Answer)
    | RaisesLlm(code: string, provider: Option<string>)
    | Raises
    | IsCancelled

  /** The waits outside generation: the first transaction, the history read, the last transaction. */
  datatype Wait = AtStart | AtRead | AtEnd

  /** What the call does not decide itself: clock readings, the model, what others commit at each point where the call
      waits, whether it is cancelled at a wait outside generation (or the database fails there), whether the request
      passes its schema, and whether the cleanup transaction gets through. */
  datatype Surroundings = Surroundings(
    startAt: Time,
    answeredAt: Time,
    closedAt: Time,
    llm: LlmRequest -> LlmResult,
    valid: bool,
    recorded: bool,
    cancelled: Option<Wait>,
    beforeStart: seq<Action>,
    beforeRead: seq<Action>,
    duringCall: seq<Action>,
    beforeEnd: seq<Action>)

  /** Caller k's own steps are not among them. */
  predicate Others(k: nat, actions: seq<Action>) {
    forall i :: 0 <= i < |actions| ==> !Of(k, actions[i])
  }

  predicate Of(k: nat, a: Action) {
    !a.Create? && !a.ArchiveCall? && !a.Call? && a.caller == k
  }

  predicate Undisturbing(k: nat, around: Surroundings) {
    && Others(k, around.beforeStart) && Others(k, around.beforeRead)
    && Others(k, around.duringCall) && Others(k, around.beforeEnd)
  }

  lemma {:induction false} NextRecords(s: State, a: Action)
    ensures s.generations <= Next(s, a).generations
  {
  }

  lemma {:induction false} OthersLeave(s: State, k: nat, actions: seq<Action>)
    requires k < |s.callers| && Others(k, actions)
    ensures k < |RunAll(s, actions).callers| && RunAll(s, actions).callers[k] == s.callers[k]
    ensures RunAll(s, actions).limits == s.limits && s.generations <= RunAll(s, actions).generations
    decreases |actions|
  {
    if actions != [] {
      assert !Of(k, actions[0]);
      NextRecords(s, actions[0]);
      OthersLeave(Next(s, actions[0]), k, actions[1..]);
    }
  }

  lemma {:induction false} RunAppend(s: State, a: seq<Action>, b: seq<Action>)
    ensures RunAll(s, a + b) == RunAll(RunAll(s, a), b)
    decreases |a|
  {
    if a == [] {
      assert a + b == b;
    } else {
      RunAppend(Next(s, a[0]), a[1..], b);
      assert (a + b)[1..] == a[1..] + b;
    }
  }

  lemma {:induction false} StillReachable(s: State, actions: seq<Action>)
    requires Reachable(s)
    ensures Reachable(RunAll(s, actions))
  {
    var limits, before :| s == RunAll(Initial(limits), before);
    RunAppend(Initial(limits), before, actions);
  }

  // ---------------------------------------------------------------------------------------------------------
  // The course of a call.

  /** The state each of the call's own steps is taken in, and the step. It ends with its first transaction, with its
      history read, or with its last transaction; the model is asked in the last case only. */
  datatype Course =
    | Unstarted(waiting: State, start: Action)
    | Unread(waiting: State, start: Action, reading: State, read: Action)
    | Unasked(waiting: State, start: Action, reading: State, read: Action, build: Action, ending: State, last: Action)
    | Asked(waiting: State, start: Action, reading: State, read: Action, build: Action, asking: State, reply: Action,
            ending: State, last: Action)

  /** The states follow from each other by the call's steps and the others'. */
  predicate Follows(w: State, command: ChatCommand, around: Surroundings, c: Course, end: State) {
    c.waiting == RunAll(Next(w, Call(command)), around.beforeStart) && Proceeds(around, c, end)
  }

  predicate Proceeds(around: Surroundings, c: Course, end: State) {
    && (!c.Unstarted? ==> c.reading == RunAll(Next(c.waiting, c.start), around.beforeRead))
    && match c
       case Unstarted(waiting, start) => end == Next(waiting, start)
       case Unread(_, _, reading, read) => end == Next(reading, read)
       case Unasked(_, _, reading, read, build, ending, last) =>
         ending == RunAll(Next(Next(reading, read), build), around.beforeEnd) && end == Next(ending, last)
       case Asked(_, _, reading, read, build, asking, reply, ending, last) =>
         && asking == RunAll(Next(Next(reading, read), build), around.duringCall)
         && ending == RunAll(Next(asking, reply), around.beforeEnd) && end == Next(ending, last)
  }

  /** All steps, the call's own and the others'. */
  function Steps(command: ChatCommand, around: Surroundings, c: Course): seq<Action> {
    var started := [Call(command)] + around.beforeStart + [c.start];
    match c
    case Unstarted(_, _) => started
    case Unread(_, _, _, read) => started + (around.beforeRead + [read])
    case Unasked(_, _, _, read, build, _, last) =>
      started + (around.beforeRead + [read, build] + (around.beforeEnd + [last]))
    case Asked(_, _, _, read, build, _, reply, _, last) =>
      started + (around.beforeRead + [read, build] + (around.duringCall + [reply] + (around.beforeEnd + [last])))
  }

  lemma {:induction false} RunThen(s: State, others: seq<Action>, a: Action)
    ensures RunAll(s, others + [a]) == Next(RunAll(s, others), a)
  {
    RunSnoc(s, others, a);
  }

  lemma {:induction false} RunThenTwo(s: State, others: seq<Action>, a: Action, b: Action)
    ensures RunAll(s, others + [a, b]) == Next(Next(RunAll(s, others), a), b)
  {
    RunSnoc(s, others, a);
    RunSnoc(s, others + [a], b);
    assert others + [a] + [b] == others + [a, b];
  }

  /** A course is a run of the state machine. */
  lemma {:induction false} CourseIsRun(w: State, command: ChatCommand, around: Surroundings, c: Course, end: State)
    requires Follows(w, command, around, c, end)
    ensures end == RunAll(w, Steps(command, around, c))
  {
    var started := [Call(command)] + around.beforeStart + [c.start];
    assert RunAll(w, started) == Next(c.waiting, c.start) by {
      RunThen(w, [Call(command)] + around.beforeStart, c.start);
      RunAppend(w, [Call(command)], around.beforeStart);
      RunSnoc(w, [], Call(command));
      assert [] + [Call(command)] == [Call(command)];
    }
    var s1 := Next(c.waiting, c.start);
    match c {
      case Unstarted(_, _) =>
      case Unread(_, _, reading, read) =>
        RunAppend(w, started, around.beforeRead + [read]);
        RunThen(s1, around.beforeRead, read);
      case Unasked(_, _, reading, read, build, ending, last) =>
        RunThenTwo(s1, around.beforeRead, read, build);
        RunThen(Next(Next(reading, read), build), around.beforeEnd, last);
        RunAppend(s1, around.beforeRead + [read, build], around.beforeEnd + [last]);
        RunAppend(w, started, around.beforeRead + [read, build] + (around.beforeEnd + [last]));
      case Asked(_, _, reading, read, build, asking, reply, ending, last) =>
        RunThenTwo(s1, around.beforeRead, read, build);
        RunThen(Next(Next(reading, read), build), around.duringCall, reply);
        RunThen(Next(asking, reply), around.beforeEnd, last);
        RunAppend(Next(Next(reading, read), build), around.duringCall + [reply], around.beforeEnd + [last]);
        RunAppend(s1, around.beforeRead + [read, build], around.duringCall + [reply] + (around.beforeEnd + [last]));
        RunAppend(w, started, around.beforeRead + [read, build] +
                  (around.duringCall + [reply] + (around.beforeEnd + [last])));
    }
  }

  function StageAt(s: State, k: nat): Stage {
    if k < |s.callers| then s.callers[k].stage else Ready
  }

  /** Cancelled at this wait. */
  predicate CancelledAt(around: Surroundings, wait: Wait) {
    around.cancelled == Some(wait)
  }

  predicate StartStep(s: State, k: nat, around: Surroundings, a: Action) {
    Enabled(s, a) &&
    if CancelledAt(around, AtStart) then a == Interrupt(k)
    else a.StartPending? && a.caller == k && a.at == around.startAt
  }

  /** bounded_limit raises for a limit that is not positive. */
  predicate ReadStep(s: State, k: nat, command: ChatCommand, around: Surroundings, a: Action) {
    Enabled(s, a) &&
    if CancelledAt(around, AtRead) || command.limit <= 0 then a == Interrupt(k) else a.ReadHistory? && a.caller == k
  }

  predicate BuildStep(s: State, k: nat, valid: bool, a: Action) {
    Enabled(s, a) && a == Action.BuildRequest(k, valid)
  }

  predicate ReplyStep(s: State, k: nat, result: LlmResult, at: Time, a: Action) {
    && Enabled(s, a)
    && match result
       case Answers(answer) => a == Respond(k, answer, at)
       case RaisesLlm(code, provider) => a == RaiseError(k, code, provider)
       case Raises => a == RaiseError(k, "llm_generation_failed", None)
       case IsCancelled => a == CancelGeneration(k)
  }

  /** The model is asked what the request says. */
  predicate AskStep(s: State, k: nat, around: Surroundings, a: Action) {
    StageAt(s, k).Generating? && ReplyStep(s, k, around.llm(StageAt(s, k).request), around.answeredAt, a)
  }

  /** A cancellation reaches the caller of an answered call; the cleanup transactions swallow it, and may fail. */
  predicate LastStep(s: State, k: nat, around: Surroundings, a: Action) {
    && Enabled(s, a)
    && match StageAt(s, k)
       case Answered(_) =>
         if CancelledAt(around, AtEnd) then a == Interrupt(k) else a.Finish? && a.caller == k
       case Failing(_, _, _) =>
         if around.recorded && !CancelledAt(around, AtEnd)
         then a.RecordFailure? && a.caller == k && a.at == around.closedAt
         else a == LoseRecord(k)
       case Cancelling =>
         if around.recorded && !CancelledAt(around, AtEnd)
         then a.RecordCancel? && a.caller == k && a.at == around.closedAt
         else a == LoseRecord(k)
       case _ => false
  }

  /** Each step is the one the surroundings leave the call. */
  predicate Steered(k: nat, command: ChatCommand, around: Surroundings, c: Course) {
    && StartStep(c.waiting, k, around, c.start)
    && match c
       case Unstarted(waiting, start) => StageAt(Next(waiting, start), k).Done?
       case Unread(waiting, start, reading, read) =>
         && StageAt(Next(waiting, start), k).Started?
         && ReadStep(reading, k, command, around, read) && StageAt(Next(reading, read), k).Done?
       case Unasked(waiting, start, reading, read, build, ending, last) =>
         && StageAt(Next(waiting, start), k).Started?
         && ReadStep(reading, k, command, around, read) && BuildStep(Next(reading, read), k, around.valid, build)
         && StageAt(Next(Next(reading, read), build), k).Failing? && LastStep(ending, k, around, last)
       case Asked(waiting, start, reading, read, build, asking, reply, ending, last) =>
         && StageAt(Next(waiting, start), k).Started?
         && ReadStep(reading, k, command, around, read) && BuildStep(Next(reading, read), k, around.valid, build)
         && AskStep(asking, k, around, reply) && LastStep(ending, k, around, last)
  }

  // ---------------------------------------------------------------------------------------------------------
  // How it must end.

  /** What the model's behaviour makes of the call. */
  function StageAfter(result: LlmResult, model: Option<string>, at: Time): Stage {
    match result
    case Answers(a) =>
      if Blank(a.text) then Failing("provider_invalid_response", Some(a.provider), Some(a.model))
      else Answered(Completion(a.text, Some(a.provider), Some(a.model), Some(a.finish), a.usage, at))
    case RaisesLlm(code, provider) => Failing(code, provider, model)
    case Raises => Failing("llm_generation_failed", None, model)
    case IsCancelled => Cancelling
  }

  /** The call got its turn, and the turn is stored. */
  predicate GotTurn(waiting: State, start: Action, command: ChatCommand, around: Surroundings) {
    && !CancelledAt(around, AtStart) && Startable(waiting.aggs, command, around.startAt) && start.StartPending?
    && StartedRows(Next(waiting, start).db, command, start.turnId, start.messageId, around.startAt)
  }

  /** The request asks the command's question after the completed messages of the conversation. */
  predicate Requests(limits: Limits, aggs: Aggregates, command: ChatCommand, p: Caller) {
    && command.conversationId in aggs && p.turn.Some? && p.stage.Generating?
    && p.turn.value.user.content == command.content
    && Build(limits.messages, limits.characters, CompletedMessages(aggs[command.conversationId]), p.turn.value.user,
             command.requestId, command.limit, command.model, true) == Ok(p.stage.request)
  }

  /** The caller asks the model that, and the call of the model is on record. */
  predicate Asks(limits: Limits, aggs: Aggregates, command: ChatCommand, s: State, k: nat) {
    && k < |s.callers| && Requests(limits, aggs, command, s.callers[k])
    && Generation(k, s.callers[k].stage.request) in s.generations
  }

  /** What the last step makes of a stage, by what the conversation's row says then, and what it writes. */
  predicate Concludes(row: ConversationRow, turnId: Id, stage: Stage, around: Surroundings, outcome: Outcome,
                      db: Tables, db': Tables) {
    match stage
    case Answered(a) =>
      if !CancelledAt(around, AtEnd) && row.status == "active" && row.updatedAt <= a.at && CompletionFits(a)
      then outcome == Returned(a)
      else outcome == Stopped && db' == db
    case Failing(code, provider, model) =>
      outcome == GenerationFailed(code) &&
      if around.recorded && !CancelledAt(around, AtEnd) && Closable(row, around.closedAt) &&
         Fits(Some(code), 128) && Fits(provider, 64) && Fits(model, 255)
      then turnId in db'.turns && FailedRow(db'.turns[turnId], code, provider, model, around.closedAt)
      else db' == db
    case Cancelling =>
      outcome == CancelledCall &&
      if around.recorded && !CancelledAt(around, AtEnd) && Closable(row, around.closedAt)
      then turnId in db'.turns && CancelledRow(db'.turns[turnId], around.closedAt)
      else db' == db
    case _ => false
  }

  /** The last step concludes the call, and the tables agree with its outcome. */
  predicate Ends(s: State, command: ChatCommand, turnId: Id, stage: Stage, around: Surroundings, outcome: Outcome,
                 db: Tables) {
    && command.conversationId in s.db.conversations && OutcomeStored(db, turnId, outcome)
    && Concludes(s.db.conversations[command.conversationId], turnId, stage, around, outcome, s.db, db)
  }

  /** The outcome of a call and what it leaves in the tables, by its surroundings. */
  predicate EndsAs(limits: Limits, k: nat, command: ChatCommand, around: Surroundings, c: Course, outcome: Outcome,
                   db: Tables) {
    match c
    case Unstarted(waiting, _) =>
      db == waiting.db &&
      if CancelledAt(around, AtStart) then outcome == Stopped
      else !Startable(waiting.aggs, command, around.startAt) &&
           outcome == RefusedWith(RefusalOf(waiting.aggs, command, around.startAt))
    case Unread(waiting, start, reading, _) =>
      && GotTurn(waiting, start, command, around) && (CancelledAt(around, AtRead) || !Readable(limits, command))
      && outcome == Stopped && db == reading.db
    case Unasked(waiting, start, reading, _, _, ending, _) =>
      && GotTurn(waiting, start, command, around) && !CancelledAt(around, AtRead) && Readable(limits, command)
      && !(around.valid && |command.content| <= limits.characters)
      && Ends(ending, command, start.turnId, Failing("conversation_context_invalid", None, command.model), around,
              outcome, db)
    case Asked(waiting, start, reading, _, _, asking, _, ending, _) =>
      && GotTurn(waiting, start, command, around) && !CancelledAt(around, AtRead) && Readable(limits, command)
      && around.valid && |command.content| <= limits.characters
      && Asks(limits, reading.aggs, command, asking, k)
      && Ends(ending, command, start.turnId,
              StageAfter(around.llm(asking.callers[k].stage.request), command.model, around.answeredAt), around,
              outcome, db)
  }

  // ---------------------------------------------------------------------------------------------------------
  // It does.

  lemma {:induction false} LocalStepIs(s: State, k: nat, a: Action)
    requires a.Respond? || a.RaiseError? || a.CancelGeneration? || a.LoseRecord? || a.Interrupt?
    requires a.caller == k && Enabled(s, a)
    ensures k < |s.callers| == |Next(s, a).callers| && StageFits(s.callers[k], a)
    ensures Next(s, a).callers[k] == Local(s, s.callers[k], a)
    ensures Next(s, a).limits == s.limits && Next(s, a).db == s.db && Next(s, a).aggs == s.aggs
  {
  }

  lemma {:induction false} InterruptIs(s: State, k: nat)
    requires Enabled(s, Interrupt(k))
    ensures var s' := Next(s, Interrupt(k));
            k < |s.callers| == |s'.callers| && s'.callers[k] == s.callers[k].(stage := Done(Stopped)) &&
            s'.limits == s.limits && s'.db == s.db && s'.aggs == s.aggs
  {
    LocalStepIs(s, k, Interrupt(k));
  }

  lemma {:induction false} LoseRecordIs(s: State, k: nat)
    requires Enabled(s, LoseRecord(k))
    ensures k < |s.callers| == |Next(s, LoseRecord(k)).callers| && Next(s, LoseRecord(k)).db == s.db
    ensures var p := s.callers[k];
            Next(s, LoseRecord(k)).callers[k] ==
            p.(stage := Done(if p.stage.Failing? then GenerationFailed(p.stage.code) else CancelledCall))
  {
    LocalStepIs(s, k, LoseRecord(k));
  }

  lemma {:induction false} NextKeepsLimits(s: State, a: Action)
    ensures Next(s, a).limits == s.limits && |s.callers| <= |Next(s, a).callers|
  {
  }

  lemma {:induction false} StartPhase(s: State, k: nat, command: ChatCommand, around: Surroundings, a: Action)
    requires Reachable(s) && k < |s.callers| && s.callers[k] == Caller(command, None, Ready)
    requires StartStep(s, k, around, a)
    ensures var s' := Next(s, a);
            k < |s'.callers| &&
            if CancelledAt(around, AtStart) then s'.callers[k].stage == Done(Stopped) && s'.db == s.db
            else if Startable(s.aggs, command, around.startAt)
            then GotTurn(s, a, command, around) && s'.callers[k].command == command &&
                 s'.callers[k].stage == Started && s'.callers[k].turn.Some? && s'.callers[k].turn.value.id == a.turnId
            else s'.callers[k].stage == Done(RefusedWith(RefusalOf(s.aggs, command, around.startAt))) && s'.db == s.db
  {
    NextKeepsLimits(s, a);
    if CancelledAt(around, AtStart) {
      InterruptIs(s, k);
    } else {
      StartsIff(s, a);
    }
  }

  lemma {:induction false} ReadPhase(s: State, k: nat, command: ChatCommand, around: Surroundings, a: Action)
    requires Reachable(s) && k < |s.callers| && s.callers[k].command == command
    requires ReadStep(s, k, command, around, a)
    ensures var s' := Next(s, a);
            k < |s'.callers| && s'.db == s.db && s'.aggs == s.aggs && s'.limits == s.limits &&
            if CancelledAt(around, AtRead) || !Readable(s.limits, command)
            then s'.callers[k].stage == Done(Stopped)
            else command.conversationId in s.aggs &&
                 s'.callers[k] ==
                 s.callers[k].(stage := HistoryRead(LastK(CompletedMessages(s.aggs[command.conversationId]),
                                                          Smaller(command.limit, s.limits.messages))))
  {
    if CancelledAt(around, AtRead) || command.limit <= 0 {
      InterruptIs(s, k);
    } else {
      ReadsIff(s, a);
    }
  }

  lemma {:induction false} CompletedOf(s: State, cid: Id)
    requires Reachable(s) && cid in s.aggs
    ensures StrictlySorted(MessageSequenceOf, CompletedMessages(s.aggs[cid]))
  {
    ReachableIsSafe(s);
    assert AggregateOk(s.aggs, cid);
    CompletedSorted(s.aggs[cid]);
  }

  lemma {:induction false} BuildPhase(s: State, k: nat, command: ChatCommand, around: Surroundings,
                                      completed: seq<Message>, a: Action)
    requires Reachable(s) && k < |s.callers| && s.callers[k].command == command && Readable(s.limits, command)
    requires BuildStep(s, k, around.valid, a) && StrictlySorted(MessageSequenceOf, completed)
    requires s.callers[k].stage == HistoryRead(LastK(completed, Smaller(command.limit, s.limits.messages)))
    ensures var s' := Next(s, a);
            k < |s'.callers| && s'.db == s.db && s'.limits == s.limits &&
            s'.callers[k] == s.callers[k].(stage := s'.callers[k].stage) && s.callers[k].turn.Some? &&
            s.callers[k].turn.value.user.content == command.content &&
            if around.valid && |command.content| <= s.limits.characters
            then s'.callers[k].stage.Generating? && Generation(k, s'.callers[k].stage.request) in s'.generations &&
                 Build(s.limits.messages, s.limits.characters, completed, s.callers[k].turn.value.user,
                       command.requestId, command.limit, command.model, true) == Ok(s'.callers[k].stage.request)
            else s'.callers[k].stage == Failing("conversation_context_invalid", None, command.model)
  {
    NextKeepsLimits(s, a);
    BuildsStep(s, a, completed);
    ReachableIsSafe(s);
    assert CallerOk(s.aggs, s.callers[k]);
  }

  lemma {:induction false} ReplyPhase(s: State, k: nat, around: Surroundings, a: Action)
    requires k < |s.callers| && AskStep(s, k, around, a)
    ensures var s' := Next(s, a);
            var p := s.callers[k];
            p.stage.Generating? && k < |s'.callers| && s'.limits == s.limits &&
            s'.callers[k] ==
            p.(stage := StageAfter(around.llm(p.stage.request), p.command.model, around.answeredAt))
  {
    LocalStepIs(s, k, a);
    LocalReply(s, s.callers[k], k, around.llm(s.callers[k].stage.request), around.answeredAt, a);
  }

  lemma {:induction false} LocalReply(s: State, p: Caller, k: nat, result: LlmResult, at: Time, a: Action)
    requires ReplyStep(s, k, result, at, a) && StageFits(p, a)
    ensures Local(s, p, a) == p.(stage := StageAfter(result, p.command.model, at))
  {
  }

  lemma {:induction false} LastPhase(s: State, k: nat, command: ChatCommand, turnId: Id, stage: Stage,
                                     around: Surroundings, a: Action)
    requires Reachable(s) && LastStep(s, k, around, a) && k < |s.callers| && s.callers[k].stage == stage
    requires s.callers[k].command == command && s.callers[k].turn.Some? && s.callers[k].turn.value.id == turnId
    ensures StageAt(Next(s, a), k).Done?
    ensures Ends(s, command, turnId, stage, around, StageAt(Next(s, a), k).outcome, Next(s, a).db)
  {
    match stage {
      case Answered(_) => ReturnPhase(s, k, around, a);
      case Failing(_, _, _) => FailPhase(s, k, around, a);
      case Cancelling => CancelPhase(s, k, around, a);
    }
    NextIsReachable(s, a);
    OutcomesAgree(Next(s, a), k);
  }

  /** The last step has done what it must. */
  predicate Concluded(s: State, k: nat, around: Surroundings, s': State) {
    && k < |s.callers| && k < |s'.callers| && s.callers[k].turn.Some? && s'.callers[k].stage.Done?
    && s'.callers[k] == s.callers[k].(stage := s'.callers[k].stage)
    && s.callers[k].command.conversationId in s.db.conversations
    && Concludes(s.db.conversations[s.callers[k].command.conversationId], s.callers[k].turn.value.id,
                 s.callers[k].stage, around, s'.callers[k].stage.outcome, s.db, s'.db)
  }

  lemma {:induction false} HasRow(s: State, k: nat)
    requires Reachable(s) && k < |s.callers| && s.callers[k].turn.Some?
    ensures s.callers[k].command.conversationId in s.db.conversations
  {
    ReachableIsSafe(s);
    assert CallerOk(s.aggs, s.callers[k]);
  }

  lemma {:induction false} ReturnPhase(s: State, k: nat, around: Surroundings, a: Action)
    requires Reachable(s) && LastStep(s, k, around, a) && k < |s.callers| && s.callers[k].turn.Some?
    requires s.callers[k].stage.Answered?
    ensures Concluded(s, k, around, Next(s, a))
  {
    HasRow(s, k);
    if CancelledAt(around, AtEnd) {
      InterruptIs(s, k);
    } else {
      FinishesIff(s, a);
      if Next(s, a).callers[k].stage == Done(Stopped) {
        StoppedWritesNothing(s, a);
      }
    }
  }

  lemma {:induction false} FailPhase(s: State, k: nat, around: Surroundings, a: Action)
    requires Reachable(s) && LastStep(s, k, around, a) && k < |s.callers| && s.callers[k].turn.Some?
    requires s.callers[k].stage.Failing?
    ensures Concluded(s, k, around, Next(s, a))
  {
    HasRow(s, k);
    if a.RecordFailure? {
      RecordsFailureIff(s, a);
    } else {
      LoseRecordIs(s, k);
    }
  }

  lemma {:induction false} CancelPhase(s: State, k: nat, around: Surroundings, a: Action)
    requires Reachable(s) && LastStep(s, k, around, a) && k < |s.callers| && s.callers[k].turn.Some?
    requires s.callers[k].stage.Cancelling?
    ensures Concluded(s, k, around, Next(s, a))
  {
    HasRow(s, k);
    if a.RecordCancel? {
      RecordsCancelIff(s, a);
    } else {
      LoseRecordIs(s, k);
    }
  }

  // ---------------------------------------------------------------------------------------------------------
  // The whole call.

  /** What a call is at each state it takes a step in. */
  lemma {:induction false} OthersPass(s: State, k: nat, actions: seq<Action>)
    requires Reachable(s) && k < |s.callers| && Others(k, actions)
    ensures var s' := RunAll(s, actions);
            Reachable(s') && k < |s'.callers| && s'.callers[k] == s.callers[k] && s'.limits == s.limits
  {
    OthersLeave(s, k, actions);
    StillReachable(s, actions);
  }

  lemma {:induction false} AsksStill(limits: Limits, aggs: Aggregates, command: ChatCommand, s: State, k: nat,
                                     actions: seq<Action>)
    requires Asks(limits, aggs, command, s, k) && Others(k, actions)
    ensures Asks(limits, aggs, command, RunAll(s, actions), k)
  {
    OthersLeave(s, k, actions);
  }

  lemma {:induction false} WaitingOf(w: State, k: nat, command: ChatCommand, around: Surroundings, c: Course)
    requires Reachable(w) && k == |w.callers| && Others(k, around.beforeStart)
    requires c.waiting == RunAll(Next(w, Call(command)), around.beforeStart)
    ensures Reachable(c.waiting) && k < |c.waiting.callers| && c.waiting.limits == w.limits
    ensures c.waiting.callers[k] == Caller(command, None, Ready)
  {
    NextIsReachable(w, Call(command));
    OthersPass(Next(w, Call(command)), k, around.beforeStart);
  }

  /** From the first transaction to the state the history is read in. */
  lemma {:induction false} ReadingOf(s: State, k: nat, command: ChatCommand, around: Surroundings, start: Action,
                                     reading: State)
    requires Reachable(s) && k < |s.callers| && s.callers[k] == Caller(command, None, Ready)
    requires StartStep(s, k, around, start) && StageAt(Next(s, start), k).Started?
    requires Others(k, around.beforeRead) && reading == RunAll(Next(s, start), around.beforeRead)
    ensures GotTurn(s, start, command, around)
    ensures Reachable(reading) && k < |reading.callers| && reading.limits == s.limits
    ensures var p := reading.callers[k];
            p.command == command && p.stage == Started && p.turn.Some? && p.turn.value.id == start.turnId
  {
    StartPhase(s, k, command, around, start);
    NextIsReachable(s, start);
    NextKeepsLimits(s, start);
    OthersPass(Next(s, start), k, around.beforeRead);
  }

  /** From the history read to the request. */
  lemma {:induction false} BuiltOf(s: State, k: nat, command: ChatCommand, around: Surroundings, read: Action,
                                   build: Action)
    requires Reachable(s) && k < |s.callers| && s.callers[k].command == command
    requires ReadStep(s, k, command, around, read) && BuildStep(Next(s, read), k, around.valid, build)
    ensures !CancelledAt(around, AtRead) && Readable(s.limits, command)
    ensures var s' := Next(Next(s, read), build);
            Reachable(s') && s'.limits == s.limits && k < |s'.callers| &&
            s'.callers[k] == s.callers[k].(stage := s'.callers[k].stage) &&
            if around.valid && |command.content| <= s.limits.characters
            then Asks(s.limits, s.aggs, command, s', k)
            else s'.callers[k].stage == Failing("conversation_context_invalid", None, command.model)
  {
    ReadPhase(s, k, command, around, read);
    NextIsReachable(s, read);
    CompletedOf(s, command.conversationId);
    BuildPhase(Next(s, read), k, command, around, CompletedMessages(s.aggs[command.conversationId]), build);
    NextIsReachable(Next(s, read), build);
  }

  /** From the model's reply to the last step. */
  lemma {:induction false} AnswersOf(s: State, k: nat, around: Surroundings, reply: Action, ending: State)
    requires Reachable(s) && k < |s.callers| && AskStep(s, k, around, reply)
    requires Others(k, around.beforeEnd) && ending == RunAll(Next(s, reply), around.beforeEnd)
    ensures s.callers[k].stage.Generating?
    ensures Reachable(ending) && k < |ending.callers|
    ensures ending.callers[k] == s.callers[k].(stage := StageAfter(around.llm(s.callers[k].stage.request),
                                                                   s.callers[k].command.model, around.answeredAt))
  {
    ReplyPhase(s, k, around, reply);
    NextIsReachable(s, reply);
    OthersPass(Next(s, reply), k, around.beforeEnd);
  }

  /** Main result: a call whose steps are those its surroundings leave it ends as they say. Its turn is started exactly
      when the command can be, or it is refused for the first reason that applies; the model is asked exactly when
      the limit can be read with, the request passes its schema and the message fits; an answer is returned exactly
      when the last transaction finds the conversation active, not touched later, and the answer fits; a failure or
      cancellation is recorded exactly when the cleanup gets through and the conversation takes it. A call that
      stops or is refused writes nothing at that step. */
  lemma {:induction false} CallEndsAs(w: State, command: ChatCommand, around: Surroundings, c: Course, end: State,
                                      outcome: Outcome)
    requires Reachable(w) && Undisturbing(|w.callers|, around)
    requires Follows(w, command, around, c, end) && Steered(|w.callers|, command, around, c)
    requires StageAt(end, |w.callers|) == Done(outcome)
    ensures EndsAs(w.limits, |w.callers|, command, around, c, outcome, end.db)
  {
    var k := |w.callers|;
    WaitingOf(w, k, command, around, c);
    match c {
      case Unstarted(waiting, start) =>
        StartPhase(waiting, k, command, around, start);
      case Unread(waiting, start, reading, read) =>
        ReadingOf(waiting, k, command, around, start, reading);
        ReadPhase(reading, k, command, around, read);
      case Unasked(waiting, start, reading, read, build, ending, last) =>
        UnaskedEnds(waiting, k, command, around, start, reading, read, build, ending, last);
      case Asked(waiting, start, reading, read, build, asking, reply, ending, last) =>
        AskedEnds(waiting, k, command, around, start, reading, read, build, asking, reply, ending, last);
    }
  }

  lemma {:induction false} UnaskedEnds(waiting: State, k: nat, command: ChatCommand, around: Surroundings,
                                       start: Action, reading: State, read: Action, build: Action, ending: State,
                                       last: Action)
    requires Reachable(waiting) && k < |waiting.callers| && waiting.callers[k] == Caller(command, None, Ready)
    requires Undisturbing(k, around)
    requires Steered(k, command, around, Unasked(waiting, start, reading, read, build, ending, last))
    requires reading == RunAll(Next(waiting, start), around.beforeRead)
    requires ending == RunAll(Next(Next(reading, read), build), around.beforeEnd)
    ensures StageAt(Next(ending, last), k).Done?
    ensures EndsAs(waiting.limits, k, command, around, Unasked(waiting, start, reading, read, build, ending, last),
                   StageAt(Next(ending, last), k).outcome, Next(ending, last).db)
  {
    ReadingOf(waiting, k, command, around, start, reading);
    BuiltOf(reading, k, command, around, read, build);
    var built := Next(Next(reading, read), build);
    OthersPass(built, k, around.beforeEnd);
    LastPhase(ending, k, command, start.turnId, built.callers[k].stage, around, last);
  }

  lemma {:induction false} AskedEnds(waiting: State, k: nat, command: ChatCommand, around: Surroundings, start: Action,
                                     reading: State, read: Action, build: Action, asking: State, reply: Action,
                                     ending: State, last: Action)
    requires Reachable(waiting) && k < |waiting.callers| && waiting.callers[k] == Caller(command, None, Ready)
    requires Undisturbing(k, around)
    requires Steered(k, command, around, Asked(waiting, start, reading, read, build, asking, reply, ending, last))
    requires reading == RunAll(Next(waiting, start), around.beforeRead)
    requires asking == RunAll(Next(Next(reading, read), build), around.duringCall)
    requires ending == RunAll(Next(asking, reply), around.beforeEnd)
    ensures StageAt(Next(ending, last), k).Done?
    ensures EndsAs(waiting.limits, k, command, around,
                   Asked(waiting, start, reading, read, build, asking, reply, ending, last),
                   StageAt(Next(ending, last), k).outcome, Next(ending, last).db)
  {
    ReadingOf(waiting, k, command, around, start, reading);
    BuiltOf(reading, k, command, around, read, build);
    OthersPass(Next(Next(reading, read), build), k, around.duringCall);
    if around.valid && |command.content| <= waiting.limits.characters {
      AsksStill(waiting.limits, reading.aggs, command, Next(Next(reading, read), build), k, around.duringCall);
    }
    AnswersOf(asking, k, around, reply, ending);
    LastPhase(ending, k, command, start.turnId, ending.callers[k].stage, around, last);
  }

  /** A call that nobody disturbs, on a conversation that takes its turn, with a limit that can be read with, a message
      within the budget and a model that answers well, returns what the model said. */
  lemma {:induction false} QuietCallReturns(w: State, command: ChatCommand, around: Surroundings, c: Course, end: State,
                                            outcome: Outcome)
    requires Reachable(w) && Follows(w, command, around, c, end) && Steered(|w.callers|, command, around, c)
    requires StageAt(end, |w.callers|) == Done(outcome)
    requires around.cancelled == None && around.beforeStart == around.beforeRead == []
    requires around.duringCall == around.beforeEnd == []
    requires Startable(w.aggs, command, around.startAt) && around.startAt <= around.answeredAt
    requires Readable(w.limits, command) && around.valid && |command.content| <= w.limits.characters
    requires forall r :: around.llm(r).Answers? && GoodAnswer(around.llm(r).answer)
    ensures c.Asked? && StageAt(c.asking, |w.callers|).Generating?
    ensures var r := StageAt(c.asking, |w.callers|).request;
            outcome == Returned(CompletionOf(around.llm(r).answer, around.answeredAt))
  {
    var k := |w.callers|;
    CallEndsAs(w, command, around, c, end, outcome);
    WaitingOf(w, k, command, around, c);
    assert c.waiting == Next(w, Call(command));
    assert c.Asked?;
    var r := StageAt(c.asking, k).request;
    LastIsFinish(c, k, command, around);
    UndisturbedCallReturns(c.waiting, c.start, c.read, c.build, c.reply, c.last);
  }

  lemma {:induction false} LastIsFinish(c: Course, k: nat, command: ChatCommand, around: Surroundings)
    requires c.Asked? && Steered(k, command, around, c) && k < |c.asking.callers|
    requires c.ending == Next(c.asking, c.reply) && around.cancelled == None
    requires StageAt(c.asking, k).Generating?
    requires var result := around.llm(StageAt(c.asking, k).request); result.Answers? && !Blank(result.answer.text)
    ensures c.last.Finish? && c.last.caller == k
  {
    ReplyPhase(c.asking, k, around, c.reply);
  }
}
