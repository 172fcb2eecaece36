/** ConversationChatService.complete as the code runs it: three transactions, and a model call outside of them, while
    other calls commit in between. Every run is proved to be a run of the state machine of module Protocol. */
module ChatService {
  import opened Prelude
  import opened Text
  import opened Aggregate
  import opened Mappers
  import opened Permutations
  import opened LoaderSoundness
  import opened Store
  import opened Transactions
  import opened Services
  import opened LlmSchemas
  import opened ContextBuilder
  import opened Representation
  import opened Protocol
  import opened ProtocolSafety
  import opened ProtocolProgress
  import opened CallRun

  lemma {:induction false} ReachableIsKeyed(s: State)
    requires Reachable(s)
    ensures Keyed(s.db)
  {
    ReachableIsSafe(s);
    RepresentsKeyed(s.db, s.aggs);
  }

  lemma {:induction false} Bound(taken: set<Id>) returns (n: Id)
    ensures forall x :: x in taken ==> x < n
  {
    if taken == {} {
      n := 0;
    } else {
      var x :| x in taken;
      var m := Bound(taken - {x});
      n := if x < m then m else x + 1;
      assert forall y :: y in taken ==> y == x || y in taken - {x};
    }
  }

  /** uuid4: some identifier that is not in use. */
  method NewId(taken: set<Id>) returns (id: Id)
    ensures id !in taken
  {
    ghost var n := Bound(taken);
    assert n !in taken;
    id :| id !in taken;
  }

  method ScanCompleted(db: Tables, conversationId: Id) returns (rows: seq<MessageRow>)
    requires Keyed(db)
    ensures SelectsCompleted(db, conversationId, rows)
  {
    rows := [];
    var todo := db.messages.Keys;
    while todo != {}
      invariant todo <= db.messages.Keys
      invariant Distinct(MessageRowId, rows)
      invariant forall i :: 0 <= i < |rows| ==>
                              rows[i].id in db.messages && rows[i].id !in todo && db.messages[rows[i].id] == rows[i] &&
                              rows[i].conversationId == conversationId && OfCompletedTurn(db, rows[i])
      invariant forall id :: (id in db.messages && id !in todo && db.messages[id].conversationId == conversationId &&
                              OfCompletedTurn(db, db.messages[id])) ==> db.messages[id] in rows
      decreases todo
    {
      var id :| id in todo;
      if db.messages[id].conversationId == conversationId && OfCompletedTurn(db, db.messages[id]) {
        rows := rows + [db.messages[id]];
      }
      todo := todo - {id};
    }
  }

  class ConversationChatService {
    const services: ConversationServices
    const builder: ConversationContextBuilder

    /** The rest of the system and this call in it. */
    var world: State

    constructor (services: ConversationServices, builder: ConversationContextBuilder)
      requires services.database.tables == EMPTY
      ensures Valid() && this.services == services && this.builder == builder
      ensures world == Initial(Limits(builder.maxMessages, builder.maxCharacters))
    {
      this.services, this.builder := services, builder;
      world := Initial(Limits(builder.maxMessages, builder.maxCharacters));
      new;
      assert RunAll(world, []) == world;
    }

    ghost predicate Valid()
      reads this, services.database
    {
      && Reachable(world) && world.db == services.database.tables
      && world.limits == Limits(builder.maxMessages, builder.maxCharacters)
    }

    /** Other calls commit while caller k waits. */
    method LetOthers(k: nat, actions: seq<Action>)
      requires Valid() && k < |world.callers| && Others(k, actions)
      modifies this, services.database
      ensures Valid() && world == RunAll(old(world), actions)
      ensures k < |world.callers| && world.callers[k] == old(world).callers[k]
    {
      OthersLeave(world, k, actions);
      StillReachable(world, actions);
      world := RunAll(world, actions);
      services.database.tables := world.db;
    }

    /** The machine takes the step whose tables the database already holds. */
    method Follow(a: Action)
      requires Reachable(world) && Next(world, a).db == services.database.tables
      requires world.limits == Limits(builder.maxMessages, builder.maxCharacters)
      modifies this
      ensures Valid() && world == Next(old(world), a)
    {
      NextIsReachable(world, a);
      world := Next(world, a);
    }

    /** _start_pending_turn */
    method StartPendingTurn(k: nat, at: Time) returns (r: Result<Turn, TxError>, a: Action)
      requires Valid() && k < |world.callers| && world.callers[k].stage.Ready? && world.callers[k].turn == None
      modifies this, services.database
      ensures Valid() && world == Next(old(world), a) && k < |world.callers|
      ensures Enabled(old(world), a) && a.StartPending? && a.caller == k && a.at == at
      ensures world.callers[k].command == old(world).callers[k].command
      ensures var p := world.callers[k];
              if r.Ok? then p.stage == Started && p.turn == Some(r.value)
              else p.stage == Done(RefusedWith(r.error))
    {
      var p := world.callers[k];
      var db := services.database.tables;
      ReachableIsKeyed(world);
      var turnId := NewId(db.turns.Keys);
      var messageId := NewId(db.messages.Keys);
      var scan;
      r, scan := services.StartPendingTurn(p.command.conversationId, turnId, messageId, p.command.content,
                                           Some(p.command.requestId), p.command.key, at);
      a := StartPending(k, scan, turnId, messageId, at);
      assert Enabled(world, a);
      Follow(a);
      if r.Err? {
        RefusalIs(r.error);
      }
    }

    /** bounded_limit and _load_completed_history */
    method ReadHistory(k: nat) returns (r: Option<seq<Message>>, a: Action)
      requires Valid() && k < |world.callers| && world.callers[k].stage.Started?
      modifies this
      ensures Valid() && world == Next(old(world), a) && k < |world.callers| && Enabled(old(world), a)
      ensures if old(world).callers[k].command.limit <= 0 then a == Interrupt(k) else a.ReadHistory? && a.caller == k
      ensures world.callers[k] ==
              old(world).callers[k].(stage := if r.Some? then HistoryRead(r.value) else Done(Stopped))
    {
      var p := world.callers[k];
      var bound := BoundedLimit(builder.maxMessages, p.command.limit);
      if bound.Err? {
        r, a := None, Interrupt(k);
      } else {
        ReachableIsKeyed(world);
        var rows := ScanCompleted(services.database.tables, p.command.conversationId);
        var history: Result<seq<Message>, Error> :=
          if 1 <= bound.value <= 100 then MessagesFromRows(Recent(rows, bound.value)) else Err(InvalidValue);
        r, a := if history.Ok? then Some(history.value) else None, Action.ReadHistory(k, rows);
      }
      assert Enabled(world, a);
      Follow(a);
    }

    method BuildRequest(k: nat, valid: bool) returns (r: Option<LlmRequest>, a: Action)
      requires Valid() && k < |world.callers| && world.callers[k].stage.HistoryRead? && world.callers[k].turn.Some?
      modifies this
      ensures Valid() && world == Next(old(world), a) && k < |world.callers| && BuildStep(old(world), k, valid, a)
      ensures var p := old(world).callers[k];
              world.callers[k] ==
              p.(stage := if r.Some? then Generating(r.value)
                          else Failing("conversation_context_invalid", None, p.command.model))
    {
      var p := world.callers[k];
      var bound := BoundedLimit(builder.maxMessages, p.command.limit);
      r := None;
      if bound.Ok? {
        var request := builder.BuildRequest(p.stage.history, p.turn.value.user, p.command.requestId, bound.value,
                                            p.command.model, valid);
        r := if request.Ok? then Some(request.value) else None;
      }
      a := Action.BuildRequest(k, valid);
      assert Enabled(world, a);
      Follow(a);
    }

    /** The model is called; no transaction is open. */
    method Generate(k: nat, result: LlmResult, at: Time) returns (a: Action)
      requires Valid() && k < |world.callers| && world.callers[k].stage.Generating?
      modifies this
      ensures Valid() && world == Next(old(world), a) && k < |world.callers|
      ensures ReplyStep(old(world), k, result, at, a)
      ensures var p := old(world).callers[k];
              world.callers[k] ==
              match result
              case Answers(answer) =>
                if Blank(answer.text) then
                  p.(stage := Failing("provider_invalid_response", Some(answer.provider), Some(answer.model)))
                else
                  p.(stage := Answered(Completion(answer.text, Some(answer.provider), Some(answer.model),
                                                  Some(answer.finish), answer.usage, at)))
              case RaisesLlm(code, provider) => p.(stage := Failing(code, provider, p.command.model))
              case Raises => p.(stage := Failing("llm_generation_failed", None, p.command.model))
              case IsCancelled => p.(stage := Cancelling)
    {
      match result {
        case Answers(answer) => a := Respond(k, answer, at);
        case RaisesLlm(code, provider) => a := RaiseError(k, code, provider);
        case Raises => a := RaiseError(k, "llm_generation_failed", None);
        case IsCancelled => a := CancelGeneration(k);
      }
      assert Enabled(world, a);
      Follow(a);
    }

    /** _complete_turn */
    method CompleteTurn(k: nat) returns (outcome: Outcome, a: Action)
      requires Valid() && k < |world.callers| && world.callers[k].stage.Answered? && world.callers[k].turn.Some?
      modifies this, services.database
      ensures Valid() && world == Next(old(world), a) && k < |world.callers|
      ensures Enabled(old(world), a) && a.Finish? && a.caller == k
      ensures world.callers[k] == old(world).callers[k].(stage := Done(outcome))
      ensures outcome == Stopped || outcome == Returned(old(world).callers[k].stage.completion)
    {
      var p := world.callers[k];
      ReachableIsKeyed(world);
      var messageId := NewId(services.database.tables.messages.Keys);
      var r, scan := services.CompleteTurn(p.command.conversationId, p.turn.value.id, messageId, p.stage.completion);
      a := Finish(k, scan, messageId);
      assert Enabled(world, a);
      Follow(a);
      outcome := if r.Ok? then Returned(p.stage.completion) else Stopped;
    }

    /** _best_effort_fail, which may itself be cancelled or fail. */
    method RecordFailure(k: nat, at: Time, recorded: bool) returns (a: Action)
      requires Valid() && k < |world.callers| && world.callers[k].stage.Failing? && world.callers[k].turn.Some?
      modifies this, services.database
      ensures Valid() && world == Next(old(world), a) && k < |world.callers|
      ensures Enabled(old(world), a)
      ensures if recorded then a.RecordFailure? && a.caller == k && a.at == at else a == LoseRecord(k)
      ensures var p := old(world).callers[k];
              world.callers[k] == p.(stage := Done(GenerationFailed(p.stage.code)))
    {
      var p := world.callers[k];
      a := LoseRecord(k);
      if recorded {
        ReachableIsKeyed(world);
        var scan := services.BestEffortFail(p.command.conversationId, p.turn.value.id, Some(p.stage.code),
                                            p.stage.provider, p.stage.model, at);
        a := Action.RecordFailure(k, scan, at);
      }
      assert Enabled(world, a);
      Follow(a);
    }

    /** _best_effort_cancel, which may itself be cancelled or fail. */
    method RecordCancel(k: nat, at: Time, recorded: bool) returns (a: Action)
      requires Valid() && k < |world.callers| && world.callers[k].stage.Cancelling? && world.callers[k].turn.Some?
      modifies this, services.database
      ensures Valid() && world == Next(old(world), a) && k < |world.callers|
      ensures Enabled(old(world), a)
      ensures if recorded then a.RecordCancel? && a.caller == k && a.at == at else a == LoseRecord(k)
      ensures world.callers[k] == old(world).callers[k].(stage := Done(CancelledCall))
    {
      var p := world.callers[k];
      a := LoseRecord(k);
      if recorded {
        ReachableIsKeyed(world);
        var scan := services.BestEffortCancel(p.command.conversationId, p.turn.value.id, at);
        a := Action.RecordCancel(k, scan, at);
      }
      assert Enabled(world, a);
      Follow(a);
    }

    /** Cancelled, or failed by the database, at a wait where complete has no handler. */
    method Abandon(k: nat) returns (a: Action)
      requires Valid() && k < |world.callers|
      requires var stage := world.callers[k].stage; !stage.Done? && !stage.Failing? && !stage.Cancelling?
      modifies this
      ensures Valid() && world == Next(old(world), a) && k < |world.callers|
      ensures Enabled(old(world), a) && a == Interrupt(k)
      ensures world.callers[k] == old(world).callers[k].(stage := Done(Stopped))
    {
      a := Interrupt(k);
      assert Enabled(world, a);
      Follow(a);
    }

    /** What is left to do once the model has been called, or could not be. The cleanup transactions swallow a
        cancellation, the last transaction of an answered call does not. */
    method Conclude(k: nat, around: Surroundings) returns (outcome: Outcome, a: Action)
      requires Valid() && k < |world.callers| && world.callers[k].turn.Some?
      requires var stage := world.callers[k].stage; stage.Answered? || stage.Failing? || stage.Cancelling?
      modifies this, services.database
      ensures Valid() && world == Next(old(world), a) && k < |world.callers| && LastStep(old(world), k, around, a)
      ensures world.callers[k] == old(world).callers[k].(stage := Done(outcome))
    {
      var cancelled := around.cancelled == Some(AtEnd);
      if world.callers[k].stage.Answered? {
        if cancelled {
          a := Abandon(k);
          outcome := Stopped;
        } else {
          outcome, a := CompleteTurn(k);
        }
      } else if world.callers[k].stage.Failing? {
        outcome := GenerationFailed(world.callers[k].stage.code);
        a := RecordFailure(k, around.closedAt, around.recorded && !cancelled);
      } else {
        a := RecordCancel(k, around.closedAt, around.recorded && !cancelled);
        outcome := CancelledCall;
      }
    }

    /** The history read, or its cancellation. */
    method TryReadHistory(k: nat, around: Surroundings) returns (r: Option<seq<Message>>, a: Action)
      requires Valid() && k < |world.callers| && world.callers[k].stage.Started?
      modifies this
      ensures Valid() && world == Next(old(world), a) && k < |world.callers|
      ensures ReadStep(old(world), k, old(world).callers[k].command, around, a)
      ensures world.callers[k] ==
              old(world).callers[k].(stage := if r.Some? then HistoryRead(r.value) else Done(Stopped))
    {
      if around.cancelled == Some(AtRead) {
        a := Abandon(k);
        r := None;
      } else {
        r, a := ReadHistory(k);
      }
    }

    /** Main result: a call, with whatever others commit while it waits and wherever it is cancelled, is a run of the
        state machine in which this call is one caller and takes the steps its surroundings leave it. It ends with the
        outcome, and the database with the rows, that they call for. */
    method Complete(command: ChatCommand, around: Surroundings) returns (outcome: Outcome, k: nat, course: Course)
      requires Valid() && Undisturbing(|world.callers|, around)
      modifies this, services.database
      ensures Valid() && k == |old(world).callers| < |world.callers|
      ensures world.callers[k].command == command && world.callers[k].stage == Done(outcome)
      ensures Follows(old(world), command, around, course, world) && Steered(k, command, around, course)
      ensures world == RunAll(old(world), Steps(command, around, course))
      ensures EndsAs(world.limits, k, command, around, course, outcome, services.database.tables)
    {
      ghost var w := world;
      k := |world.callers|;
      Follow(Call(command));
      LetOthers(k, around.beforeStart);
      var waiting := world;
      if around.cancelled == Some(AtStart) {
        var a := Abandon(k);
        outcome, course := Stopped, Unstarted(waiting, a);
      } else {
        var turn, a := StartPendingTurn(k, around.startAt);
        if turn.Err? {
          outcome, course := world.callers[k].stage.outcome, Unstarted(waiting, a);
        } else {
          outcome, course := Continue(k, command, around, waiting, a);
        }
      }
      CourseIsRun(w, command, around, course, world);
      CallEndsAs(w, command, around, course, world, outcome);
    }

    /** The call from its started turn to its end. */
    method Continue(k: nat, command: ChatCommand, around: Surroundings, waiting: State, start: Action)
      returns (outcome: Outcome, course: Course)
      requires Valid() && Undisturbing(k, around)
      requires world == Next(waiting, start) && StartStep(waiting, k, around, start)
      requires k < |world.callers| && world.callers[k].command == command
      requires world.callers[k].stage.Started? && world.callers[k].turn.Some?
      modifies this, services.database
      ensures Valid() && k < |world.callers|
      ensures world.callers[k].command == command && world.callers[k].stage == Done(outcome)
      ensures course.waiting == waiting && Proceeds(around, course, world) && Steered(k, command, around, course)
    {
      LetOthers(k, around.beforeRead);
      var reading := world;
      var history, read := TryReadHistory(k, around);
      if history == None {
        outcome, course := Stopped, Unread(waiting, start, reading, read);
      } else {
        outcome, course := Ask(k, command, around, waiting, start, reading, read);
      }
    }

    /** The call from its history to its end. */
    method Ask(k: nat, command: ChatCommand, around: Surroundings, waiting: State, start: Action, reading: State,
               read: Action) returns (outcome: Outcome, course: Course)
      requires Valid() && Undisturbing(k, around) && StartStep(waiting, k, around, start)
      requires StageAt(Next(waiting, start), k).Started? && reading == RunAll(Next(waiting, start), around.beforeRead)
      requires ReadStep(reading, k, command, around, read) && world == Next(reading, read)
      requires k < |world.callers| && world.callers[k].command == command
      requires world.callers[k].stage.HistoryRead? && world.callers[k].turn.Some?
      modifies this, services.database
      ensures Valid() && k < |world.callers|
      ensures world.callers[k].command == command && world.callers[k].stage == Done(outcome)
      ensures course.waiting == waiting && Proceeds(around, course, world) && Steered(k, command, around, course)
    {
      var request, build := BuildRequest(k, around.valid);
      if request == None {
        var ending, last;
        outcome, ending, last := AwaitEnd(k, around);
        course := Unasked(waiting, start, reading, read, build, ending, last);
      } else {
        var asking, reply, ending, last;
        outcome, asking, reply, ending, last := Generation(k, around, request.value);
        course := Asked(waiting, start, reading, read, build, asking, reply, ending, last);
      }
    }

    /** The call from its request to its end. */
    method Generation(k: nat, around: Surroundings, request: LlmRequest)
      returns (outcome: Outcome, asking: State, reply: Action, ending: State, last: Action)
      requires Valid() && Undisturbing(k, around) && k < |world.callers|
      requires world.callers[k].stage == Generating(request) && world.callers[k].turn.Some?
      modifies this, services.database
      ensures Valid() && asking == RunAll(old(world), around.duringCall) && AskStep(asking, k, around, reply)
      ensures ending == RunAll(Next(asking, reply), around.beforeEnd) && LastStep(ending, k, around, last)
      ensures world == Next(ending, last) && k < |world.callers|
      ensures world.callers[k] == old(world).callers[k].(stage := Done(outcome))
    {
      LetOthers(k, around.duringCall);
      asking := world;
      reply := Generate(k, around.llm(request), around.answeredAt);
      outcome, ending, last := AwaitEnd(k, around);
    }

    /** The wait for the last transaction, and that transaction. */
    method AwaitEnd(k: nat, around: Surroundings) returns (outcome: Outcome, ending: State, last: Action)
      requires Valid() && k < |world.callers| && world.callers[k].turn.Some? && Others(k, around.beforeEnd)
      requires var stage := world.callers[k].stage; stage.Answered? || stage.Failing? || stage.Cancelling?
      modifies this, services.database
      ensures Valid() && ending == RunAll(old(world), around.beforeEnd) && LastStep(ending, k, around, last)
      ensures world == Next(ending, last) && k < |world.callers|
      ensures world.callers[k] == old(world).callers[k].(stage := Done(outcome))
    {
      LetOthers(k, around.beforeEnd);
      ending := world;
      outcome, last := Conclude(k, around);
    }
  }
}
