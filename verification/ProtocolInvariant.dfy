/** What every step of the chat protocol keeps. */
module ProtocolInvariant {
  import opened Prelude
  import opened Text
  import opened Aggregate
  import opened AggregateInvariant
  import opened RoundTrip
  import opened Store
  import opened Transactions
  import opened LlmSchemas
  import opened ContextBuilder
  import opened Representation
  import opened Refinement
  import opened History
  import opened Protocol

  // ---------------------------------------------------------------------------------------------------------
  // What a transaction does to the aggregates.

  /** Aggregates evolve, and no turn but `touched` changes. */
  predicate Progress(aggs: Aggregates, aggs': Aggregates, touched: Option<Id>) {
    forall cid {:trigger ConversationProgress(aggs[cid], aggs'[cid], touched)} {:trigger cid in aggs'} ::
      cid in aggs ==> cid in aggs' && ConversationProgress(aggs[cid], aggs'[cid], touched)
  }

  predicate ConversationProgress(c: Conversation, c': Conversation, touched: Option<Id>) {
    Evolves(c, c') &&
    forall i :: 0 <= i < |c.turns| && Some(c.turns[i].id) != touched ==> c'.turns[i] == c.turns[i]
  }

  /** The turn a command closes. */
  function Touched(cmd: Command): Option<Id> {
    if cmd.Complete? || cmd.Fail? || cmd.Cancel? then Some(cmd.turnId) else None
  }

  lemma {:induction false} ApplyTouches(c: Conversation, cmd: Command)
    requires Apply(c, cmd).Ok?
    ensures |c.turns| <= |Apply(c, cmd).value.turns|
    ensures forall i :: 0 <= i < |c.turns| && Some(c.turns[i].id) != Touched(cmd) ==>
                          Apply(c, cmd).value.turns[i] == c.turns[i]
  {
  }

  lemma {:induction false} NormProgress(c: Conversation, c': Conversation, touched: Option<Id>)
    requires Normal(c) && ConversationProgress(c, c', touched)
    ensures ConversationProgress(c, Norm(c'), touched)
  {
    forall i | 0 <= i < |c.turns|
      ensures TurnEvolves(c.turns[i], Norm(c').turns[i])
      ensures Some(c.turns[i].id) != touched ==> Norm(c').turns[i] == c.turns[i]
    {
      assert TurnEvolves(c.turns[i], c'.turns[i]);
      assert NormTurn(c.turns[i]) == c.turns[i];
    }
  }

  lemma {:induction false} SelfProgress(c: Conversation, touched: Option<Id>)
    ensures ConversationProgress(c, c, touched)
  {
  }

  lemma {:induction false} OneProgress(aggs: Aggregates, cid: Id, c: Conversation, touched: Option<Id>)
    requires cid in aggs && ConversationProgress(aggs[cid], c, touched)
    ensures Progress(aggs, aggs[cid := c], touched)
  {
    forall o | o in aggs
      ensures ConversationProgress(aggs[o], aggs[cid := c][o], touched)
    {
      SelfProgress(aggs[o], touched);
    }
  }

  lemma {:induction false} NoProgress(aggs: Aggregates, touched: Option<Id>)
    ensures Progress(aggs, aggs, touched)
  {
    forall o | o in aggs
      ensures ConversationProgress(aggs[o], aggs[o], touched)
    {
      SelfProgress(aggs[o], touched);
    }
  }

  lemma {:induction false} OkAt(aggs: Aggregates, cid: Id)
    requires AggregatesOk(aggs) && cid in aggs
    ensures aggs[cid].id == cid && Inv(aggs[cid]) && Normal(aggs[cid])
  {
    assert AggregateOk(aggs, cid);
  }

  lemma {:induction false} ApplyInMemory(db: Tables, aggs: Aggregates, cid: Id, cmd: Command)
    requires AggregatesOk(aggs) && Represents(db, aggs) && FreshIds(db, cmd) && cid in aggs
    requires Apply(aggs[cid], cmd).Ok?
    ensures ConversationProgress(aggs[cid], Norm(Apply(aggs[cid], cmd).value), Touched(cmd))
  {
    FreshIsNew(db, aggs, cid, cmd);
    OkAt(aggs, cid);
    ApplyProgress(aggs[cid], cmd);
  }

  lemma {:induction false} ApplyProgress(c: Conversation, cmd: Command)
    requires Inv(c) && Normal(c) && DrawsNewIds(c, cmd) && Apply(c, cmd).Ok?
    ensures ConversationProgress(c, Norm(Apply(c, cmd).value), Touched(cmd))
  {
    ApplyKeepsInv(c, cmd);
    ApplyTouches(c, cmd);
    NormProgress(c, Apply(c, cmd).value, Touched(cmd));
  }

  lemma {:induction false} InMemoryProgress(db: Tables, aggs: Aggregates, cid: Id, cmd: Command)
    requires AggregatesOk(aggs) && Represents(db, aggs) && FreshIds(db, cmd)
    ensures Progress(aggs, InMemory(aggs, cid, cmd).0, Touched(cmd))
  {
    if cid in aggs && Loadable(aggs[cid]) && Apply(aggs[cid], cmd).Ok? {
      ApplyInMemory(db, aggs, cid, cmd);
      OneProgress(aggs, cid, Norm(Apply(aggs[cid], cmd).value), Touched(cmd));
    } else {
      NoProgress(aggs, Touched(cmd));
    }
  }

  // ---------------------------------------------------------------------------------------------------------
  // The invariant.

  /** The turn the caller was given sits in its conversation, as it was given or closed since. */
  predicate HasTurn(aggs: Aggregates, command: ChatCommand, t: Turn) {
    && t.conversationId == command.conversationId && t.conversationId in aggs
    && t.status == Pending && t.user.content == command.content && OptionalField(command.key, 255) == Ok(t.key)
    && 1 <= t.sequence <= |aggs[t.conversationId].turns|
    && TurnEvolves(t, aggs[t.conversationId].turns[t.sequence - 1])
  }

  /** The turn was completed with this answer. */
  predicate CompletedWith(now: Turn, a: Completion) {
    && now.status == Completed && now.assistant.Some? && now.assistant.value.content == a.content
    && now.assistant.value.createdAt == a.at && now.completedAt == Some(a.at)
    && now.provider == StripText(a.provider) && now.model == StripText(a.model) && now.finish == StripText(a.finish)
    && now.usage == NormUsage(a.usage)
  }

  /** Where the caller is, and what has become of its turn. */
  predicate StageAgrees(stage: Stage, c: Conversation, now: Turn) {
    match stage
    case Ready => false
    case Started => now.status == Pending
    case HistoryRead(history) => now.status == Pending && forall m :: m in history ==> m in CompletedMessages(c)
    case Generating(_) => now.status == Pending
    case Answered(completion) => now.status == Pending && !Blank(completion.content)
    case Failing(_, _, _) => now.status == Pending
    case Cancelling => now.status == Pending
    case Done(outcome) =>
      match outcome
      case Refused(_) => false
      case Returned(answer) => CompletedWith(now, answer)
      case GenerationFailed(code) =>
        now.status == Pending || (now.status == Failed && now.errorCode == Some(Strip(code)))
      case CancelledCall => now.status == Pending || now.status == Cancelled
      case Stopped => now.status == Pending
  }

  predicate CallerOk(aggs: Aggregates, p: Caller) {
    match p.turn
    case None => p.stage.Ready? || (p.stage.Done? && (p.stage.outcome.Refused? || p.stage.outcome.Stopped?))
    case Some(t) =>
      && HasTurn(aggs, p.command, t)
      && StageAgrees(p.stage, aggs[t.conversationId], aggs[t.conversationId].turns[t.sequence - 1])
  }

  predicate BeforeGeneration(stage: Stage) {
    stage.Ready? || stage.Started? || stage.HistoryRead?
  }

  /** The request asks about the caller's own message, after messages of completed turns only, within the bounds. */
  ghost predicate RequestOk(limits: Limits, c: Conversation, user: Message, request: LlmRequest) {
    |user.content| <= limits.characters &&
    exists selected ::
      GoodSelection(selected, CompletedMessages(c), limits.messages, limits.characters - |user.content|) &&
      Speaks(request.messages, selected, user)
  }

  ghost predicate GenerationOk(limits: Limits, aggs: Aggregates, callers: seq<Caller>, g: Generation) {
    && g.caller < |callers|
    && var p := callers[g.caller];
       p.turn.Some? && !BeforeGeneration(p.stage) && p.turn.value.conversationId in aggs &&
       g.request.correlationId == p.command.requestId && g.request.modelName == p.command.model &&
       RequestOk(limits, aggs[p.turn.value.conversationId], p.turn.value.user, g.request)
  }

  predicate DistinctOwners(callers: seq<Caller>) {
    forall j, k :: 0 <= j < k < |callers| && callers[j].turn.Some? && callers[k].turn.Some? ==>
                     callers[j].turn.value.id != callers[k].turn.value.id
  }

  predicate DistinctGenerators(generations: seq<Generation>) {
    forall g, h :: 0 <= g < h < |generations| ==> generations[g].caller != generations[h].caller
  }

  predicate CallersOk(aggs: Aggregates, callers: seq<Caller>) {
    forall k {:trigger CallerOk(aggs, callers[k])} :: 0 <= k < |callers| ==> CallerOk(aggs, callers[k])
  }

  ghost predicate GenerationsOk(limits: Limits, aggs: Aggregates, callers: seq<Caller>, generations: seq<Generation>) {
    forall g {:trigger GenerationOk(limits, aggs, callers, generations[g])} ::
      0 <= g < |generations| ==> GenerationOk(limits, aggs, callers, generations[g])
  }

  ghost predicate Safe(s: State) {
    && AggregatesOk(s.aggs) && Represents(s.db, s.aggs)
    && CallersOk(s.aggs, s.callers) && DistinctOwners(s.callers)
    && GenerationsOk(s.limits, s.aggs, s.callers, s.generations) && DistinctGenerators(s.generations)
  }

  // ---------------------------------------------------------------------------------------------------------
  // Other callers are not disturbed.

  lemma {:induction false} CompletedKept(c: Conversation, c': Conversation)
    requires Evolves(c, c')
    ensures forall m :: m in CompletedMessages(c) ==> m in CompletedMessages(c')
  {
    forall m | m in CompletedMessages(c)
      ensures m in CompletedMessages(c')
    {
      CompletedStays(c, c', m);
    }
  }

  lemma {:induction false} CallerStays(aggs: Aggregates, aggs': Aggregates, touched: Option<Id>, p: Caller)
    requires CallerOk(aggs, p) && Progress(aggs, aggs', touched)
    requires p.turn.Some? ==> Some(p.turn.value.id) != touched
    ensures CallerOk(aggs', p)
  {
    if p.turn.Some? {
      var t := p.turn.value;
      var c, c' := aggs[t.conversationId], aggs'[t.conversationId];
      assert ConversationProgress(c, c', touched);
      assert TurnEvolves(t, c.turns[t.sequence - 1]);
      assert c'.turns[t.sequence - 1] == c.turns[t.sequence - 1];
      CompletedKept(c, c');
    }
  }

  lemma {:induction false} RequestStays(limits: Limits, c: Conversation, c': Conversation, user: Message,
                                        request: LlmRequest)
    requires RequestOk(limits, c, user, request) && Evolves(c, c')
    ensures RequestOk(limits, c', user, request)
  {
    CompletedKept(c, c');
    var selected :|
      GoodSelection(selected, CompletedMessages(c), limits.messages, limits.characters - |user.content|) &&
      Speaks(request.messages, selected, user);
    assert GoodSelection(selected, CompletedMessages(c'), limits.messages, limits.characters - |user.content|);
  }

  lemma {:induction false} GenerationStays(limits: Limits, aggs: Aggregates, aggs': Aggregates, touched: Option<Id>,
                                           callers: seq<Caller>, k: nat, p: Caller, g: Generation)
    requires GenerationOk(limits, aggs, callers, g) && Progress(aggs, aggs', touched) && k < |callers|
    requires callers[k].turn.Some? ==> p.turn == callers[k].turn
    requires p.command == callers[k].command
    requires !BeforeGeneration(callers[k].stage) ==> !BeforeGeneration(p.stage)
    ensures GenerationOk(limits, aggs', callers[k := p], g)
  {
    var q := callers[g.caller];
    var t := q.turn.value;
    assert ConversationProgress(aggs[t.conversationId], aggs'[t.conversationId], touched);
    RequestStays(limits, aggs[t.conversationId], aggs'[t.conversationId], t.user, g.request);
  }

  /** One caller moves while the aggregates progress by at most its own turn. */
  lemma {:induction false} CallersStay(s: State, aggs': Aggregates, touched: Option<Id>, k: nat, p: Caller)
    requires CallersOk(s.aggs, s.callers) && DistinctOwners(s.callers) && k < |s.callers|
    requires Progress(s.aggs, aggs', touched)
    requires touched.Some? ==> s.callers[k].turn.Some? && s.callers[k].turn.value.id == touched.value
    requires CallerOk(aggs', p)
    ensures CallersOk(aggs', s.callers[k := p])
  {
    forall j | 0 <= j < |s.callers| && j != k
      ensures CallerOk(aggs', s.callers[j])
    {
      assert CallerOk(s.aggs, s.callers[j]);
      if touched.Some? && s.callers[j].turn.Some? {
        var a, b := if j < k then j else k, if j < k then k else j;
        assert s.callers[a].turn.value.id != s.callers[b].turn.value.id;
      }
      CallerStays(s.aggs, aggs', touched, s.callers[j]);
    }
  }

  lemma {:induction false} GenerationsStay(s: State, aggs': Aggregates, touched: Option<Id>, k: nat, p: Caller)
    requires GenerationsOk(s.limits, s.aggs, s.callers, s.generations) && k < |s.callers|
    requires Progress(s.aggs, aggs', touched)
    requires s.callers[k].turn.Some? ==> p.turn == s.callers[k].turn
    requires p.command == s.callers[k].command
    requires !BeforeGeneration(s.callers[k].stage) ==> !BeforeGeneration(p.stage)
    ensures GenerationsOk(s.limits, aggs', s.callers[k := p], s.generations)
  {
    forall g | 0 <= g < |s.generations|
      ensures GenerationOk(s.limits, aggs', s.callers[k := p], s.generations[g])
    {
      assert GenerationOk(s.limits, s.aggs, s.callers, s.generations[g]);
      GenerationStays(s.limits, s.aggs, aggs', touched, s.callers, k, p, s.generations[g]);
    }
  }
}
