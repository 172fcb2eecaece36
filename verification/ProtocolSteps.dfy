/** Every step of the chat protocol keeps the invariant. */
module ProtocolSteps {
  import opened Prelude
  import opened Aggregate
  import opened AggregateInvariant
  import opened Mappers
  import opened RoundTrip
  import opened Operations
  import opened Store
  import opened Transactions
  import opened ContextBuilder
  import opened Representation
  import opened Refinement
  import opened History
  import opened Protocol
  import opened ProtocolInvariant

  // ---------------------------------------------------------------------------------------------------------
  // What each command leaves in the turn it was about.

  predicate ClosedBy(cmd: Command, now: Turn) {
    match cmd
    case Complete(_, _, content, provider, model, finish, usage, at) =>
      CompletedWith(now, Completion(content, provider, model, finish, usage, at))
    case Fail(_, errorCode, _, _, _) => now.status == Failed && now.errorCode == StripText(errorCode)
    case _ => now.status == Cancelled
  }

  /** The command closes turn i. */
  predicate Closing(c: Conversation, cmd: Command, i: nat)
    requires Apply(c, cmd).Ok? && i < |c.turns|
  {
    |Apply(c, cmd).value.turns| == |c.turns| &&
    var now := NormTurn(Apply(c, cmd).value.turns[i]);
    Closes(c.turns[i], now) && ClosedBy(cmd, now)
  }

  lemma {:induction false} ClosesTurn(c: Conversation, cmd: Command, i: nat)
    requires Inv(c) && i < |c.turns| && Touched(cmd) == Some(c.turns[i].id) && Apply(c, cmd).Ok?
    ensures Closing(c, cmd, i)
  {
    if cmd.Complete? {
      CompleteOutcome(c, cmd, i);
    } else if cmd.Fail? {
      FailOutcome(c, cmd, i);
    } else {
      CancelOutcome(c, cmd, i);
    }
  }

  lemma {:induction false} OwnTurnCloses(aggs: Aggregates, command: ChatCommand, t: Turn, cmd: Command)
    requires AggregatesOk(aggs) && HasTurn(aggs, command, t) && Touched(cmd) == Some(t.id)
    ensures var c := aggs[t.conversationId]; Apply(c, cmd).Ok? ==> Closing(c, cmd, t.sequence - 1)
  {
    var c := aggs[t.conversationId];
    OkAt(aggs, t.conversationId);
    assert TurnEvolves(t, c.turns[t.sequence - 1]);
    if Apply(c, cmd).Ok? {
      ClosesTurn(c, cmd, t.sequence - 1);
    }
  }

  /** What a transaction about the caller's own turn may have made of the turn. */
  predicate TurnAfter(cmd: Command, r: Result<Option<Turn>, TxError>, now: Turn) {
    if cmd.Complete? && r.Err? then now.status == Pending
    else if cmd.Complete? then ClosedBy(cmd, now)
    else now.status == Pending || ClosedBy(cmd, now)
  }

  /** A command about the caller's own turn: the turn is closed by it, or nothing happened. */
  lemma {:induction false} OwnTurnAfter(aggs: Aggregates, command: ChatCommand, t: Turn, cmd: Command)
    requires HasTurn(aggs, command, t) && Touched(cmd) == Some(t.id)
    requires aggs[t.conversationId].turns[t.sequence - 1].status == Pending
    requires var c := aggs[t.conversationId]; Apply(c, cmd).Ok? ==> Closing(c, cmd, t.sequence - 1)
    ensures HasTurn(InMemory(aggs, t.conversationId, cmd).0, command, t)
    ensures var (aggs', r) := InMemory(aggs, t.conversationId, cmd);
            TurnAfter(cmd, r, aggs'[t.conversationId].turns[t.sequence - 1])
  {
    var c := aggs[t.conversationId];
    if Loadable(c) && Apply(c, cmd).Ok? {
      assert TurnEvolves(t, c.turns[t.sequence - 1]);
    }
  }

  lemma {:induction false} StartGives(c: Conversation, cmd: Command)
    requires cmd.Start? && Apply(c, cmd).Ok? && c.nextTurn == |c.turns| + 1
    ensures var c' := Apply(c, cmd).value;
            |c'.turns| == |c.turns| + 1 && Reply(c, c', cmd) == Some(c'.turns[|c.turns|]) &&
            var t := c'.turns[|c.turns|];
            t.conversationId == c.id && t.status == Pending && t.usage == None && t.user.content == cmd.content &&
            OptionalField(cmd.key, 255) == Ok(t.key) && t.sequence == |c.turns| + 1 && t.id == cmd.turnId
  {
  }

  /** The first transaction hands the caller a pending turn that sits in its conversation. */
  lemma {:induction false} TurnGiven(aggs: Aggregates, command: ChatCommand, cmd: Command)
    requires cmd.Start? && cmd.content == command.content && cmd.key == command.key
    requires var cid := command.conversationId;
             cid in aggs ==> aggs[cid].id == cid && aggs[cid].nextTurn == |aggs[cid].turns| + 1
    requires InMemory(aggs, command.conversationId, cmd).1.Ok?
    ensures var (aggs', r) := InMemory(aggs, command.conversationId, cmd);
            r.value.Some? && r.value.value.id == cmd.turnId && HasTurn(aggs', command, r.value.value) &&
            aggs'[command.conversationId].turns[r.value.value.sequence - 1].status == Pending
  {
    var c := aggs[command.conversationId];
    StartGives(c, cmd);
    var c' := Apply(c, cmd).value;
    var t := c'.turns[|c.turns|];
    assert Norm(c').turns[|c.turns|] == NormTurn(t) == t;
  }

  // ---------------------------------------------------------------------------------------------------------
  // A caller moves.

  /** The new caller does not claim a turn of another caller. */
  predicate ClaimsNew(callers: seq<Caller>, k: nat, p: Caller) {
    forall j :: 0 <= j < |callers| && j != k && callers[j].turn.Some? && p.turn.Some? ==>
                  callers[j].turn.value.id != p.turn.value.id
  }

  lemma {:induction false} OwnersStayDistinct(callers: seq<Caller>, k: nat, p: Caller)
    requires DistinctOwners(callers) && k < |callers| && ClaimsNew(callers, k, p)
    ensures DistinctOwners(callers[k := p])
  {
  }

  lemma {:induction false} SameTurnClaims(callers: seq<Caller>, k: nat, p: Caller)
    requires DistinctOwners(callers) && k < |callers| && p.turn == callers[k].turn
    ensures ClaimsNew(callers, k, p)
  {
    forall j | 0 <= j < |callers| && j != k && callers[j].turn.Some? && p.turn.Some?
      ensures callers[j].turn.value.id != p.turn.value.id
    {
      var a, b := if j < k then j else k, if j < k then k else j;
      assert callers[a].turn.value.id != callers[b].turn.value.id;
    }
  }

  /** Caller k becomes p while its transaction takes the tables and aggregates to new ones. */
  predicate Moves(s: State, s': State, touched: Option<Id>, k: nat, p: Caller) {
    && k < |s.callers| && s' == State(s.limits, s'.db, s'.aggs, s.callers[k := p], s.generations)
    && AggregatesOk(s'.aggs) && Represents(s'.db, s'.aggs) && Progress(s.aggs, s'.aggs, touched)
    && (touched.Some? ==> s.callers[k].turn.Some? && s.callers[k].turn.value.id == touched.value)
    && (s.callers[k].turn.Some? ==> p.turn == s.callers[k].turn) && p.command == s.callers[k].command
    && (!BeforeGeneration(s.callers[k].stage) ==> !BeforeGeneration(p.stage))
  }

  lemma {:induction false} MoveKeepsSafe(s: State, s': State, touched: Option<Id>, k: nat, p: Caller)
    requires Safe(s) && Moves(s, s', touched, k, p) && CallerOk(s'.aggs, p) && ClaimsNew(s.callers, k, p)
    ensures Safe(s')
  {
    CallersStay(s, s'.aggs, touched, k, p);
    GenerationsStay(s, s'.aggs, touched, k, p);
    OwnersStayDistinct(s.callers, k, p);
  }

  // ---------------------------------------------------------------------------------------------------------
  // Steps with a transaction.

  lemma {:induction false} OkHere(aggs: Aggregates, cid: Id)
    requires AggregatesOk(aggs) && cid in aggs
    ensures aggs[cid].id == cid && aggs[cid].nextTurn == |aggs[cid].turns| + 1
  {
    assert AggregateOk(aggs, cid);
  }

  /** The tables after a transaction, and the aggregates, still agree. */
  lemma {:induction false} TxKeepsStore(s: State, tx: Tx)
    requires Safe(s) && TxFits(s.db, tx)
    ensures var s' := RunTx(s, tx);
            AggregatesOk(s'.aggs) && Represents(s'.db, s'.aggs) && Progress(s.aggs, s'.aggs, Touched(tx.cmd))
    ensures Transact(s.db, tx.cid, tx.scan, tx.cmd).1 == InMemory(s.aggs, tx.cid, tx.cmd).1
  {
    TransactRefines(s.db, s.aggs, tx.cid, tx.scan, tx.cmd);
    InMemoryProgress(s.db, s.aggs, tx.cid, tx.cmd);
  }

  /** A turn id that is in no table is nobody's. */
  lemma {:induction false} FreshClaims(s: State, k: nat, p: Caller)
    requires Safe(s) && k < |s.callers| && p.turn.Some? && p.turn.value.id !in s.db.turns
    ensures ClaimsNew(s.callers, k, p)
  {
    forall j | 0 <= j < |s.callers| && j != k && s.callers[j].turn.Some?
      ensures s.callers[j].turn.value.id != p.turn.value.id
    {
      assert CallerOk(s.aggs, s.callers[j]);
      var t := s.callers[j].turn.value;
      assert TurnsStored(s.db.turns, s.aggs[t.conversationId]);
      assert TurnStored(s.db.turns, s.aggs[t.conversationId].turns[t.sequence - 1]);
    }
  }

  lemma {:induction false} TxMoves(s: State, a: Action, tx: Tx, p: Caller)
    requires Safe(s) && !a.Create? && !a.ArchiveCall? && !a.Call? && Enabled(s, a)
    requires TxOf(s.callers[a.caller], a) == Some(tx)
    requires p == AfterTx(s.callers[a.caller], a, InMemory(s.aggs, tx.cid, tx.cmd).1)
    requires Touched(tx.cmd).Some? ==>
               s.callers[a.caller].turn.Some? && s.callers[a.caller].turn.value.id == Touched(tx.cmd).value
    requires s.callers[a.caller].turn.Some? ==> p.turn == s.callers[a.caller].turn
    requires !BeforeGeneration(s.callers[a.caller].stage) ==> !BeforeGeneration(p.stage)
    ensures Moves(s, CallerStep(s, a), Touched(tx.cmd), a.caller, p)
    ensures CallerStep(s, a).aggs == InMemory(s.aggs, tx.cid, tx.cmd).0
  {
    TxKeepsStore(s, tx);
    assert CallerStep(s, a) == Move(RunTx(s, tx), a.caller, p);
  }

  /** A step with a transaction, once the caller's new stage is known to agree with the new aggregates. */
  lemma {:induction false} TxStep(s: State, a: Action, tx: Tx, p: Caller)
    requires Safe(s) && !a.Create? && !a.ArchiveCall? && !a.Call? && Enabled(s, a)
    requires TxOf(s.callers[a.caller], a) == Some(tx)
    requires p == AfterTx(s.callers[a.caller], a, InMemory(s.aggs, tx.cid, tx.cmd).1)
    requires CallerOk(InMemory(s.aggs, tx.cid, tx.cmd).0, p) && ClaimsNew(s.callers, a.caller, p)
    requires Touched(tx.cmd).Some? ==>
               s.callers[a.caller].turn.Some? && s.callers[a.caller].turn.value.id == Touched(tx.cmd).value
    requires s.callers[a.caller].turn.Some? ==> p.turn == s.callers[a.caller].turn
    requires !BeforeGeneration(s.callers[a.caller].stage) ==> !BeforeGeneration(p.stage)
    ensures Safe(CallerStep(s, a))
  {
    TxMoves(s, a, tx, p);
    MoveKeepsSafe(s, CallerStep(s, a), Touched(tx.cmd), a.caller, p);
  }

  /** The stage a caller reaches by its first transaction. */
  lemma {:induction false} StartCaller(aggs: Aggregates, p: Caller, a: Action, tx: Tx)
    requires AggregatesOk(aggs) && p.turn == None && a.StartPending? && TxOf(p, a) == Some(tx)
    ensures var r := InMemory(aggs, tx.cid, tx.cmd).1;
            var p' := AfterStart(p, r);
            CallerOk(InMemory(aggs, tx.cid, tx.cmd).0, p') && (p'.turn.Some? ==> p'.turn.value.id == a.turnId)
  {
    if InMemory(aggs, tx.cid, tx.cmd).1.Ok? {
      if tx.cid in aggs {
        OkHere(aggs, tx.cid);
      }
      TurnGiven(aggs, p.command, tx.cmd);
    }
  }

  lemma {:induction false} StartStep(s: State, a: Action)
    requires Safe(s) && Enabled(s, a) && a.StartPending?
    ensures Safe(CallerStep(s, a))
  {
    var p := s.callers[a.caller];
    assert CallerOk(s.aggs, p);
    var tx := TxOf(p, a).value;
    StartCaller(s.aggs, p, a, tx);
    var p' := AfterStart(p, InMemory(s.aggs, tx.cid, tx.cmd).1);
    if p'.turn.Some? {
      FreshClaims(s, a.caller, p');
    }
    TxStep(s, a, tx, p');
  }

  /** The stage reached agrees with it. */
  lemma {:induction false} StageAfter(p: Caller, a: Action, tx: Tx, r: Result<Option<Turn>, TxError>,
                                      c: Conversation, now: Turn)
    requires p.turn.Some? && StageFits(p, a) && TxOf(p, a) == Some(tx)
    requires a.Finish? || a.RecordFailure? || a.RecordCancel?
    requires TurnAfter(tx.cmd, r, now)
    ensures StageAgrees(AfterTx(p, a, r).stage, c, now)
  {
  }

  /** The stage a caller reaches by a transaction about its own turn agrees with what became of the turn. */
  lemma {:induction false} OwnTurnCaller(aggs: Aggregates, p: Caller, a: Action, t: Turn, tx: Tx)
    requires AggregatesOk(aggs)
    requires CallerOk(aggs, p) && p.turn == Some(t) && StageFits(p, a) && TxOf(p, a) == Some(tx)
    requires a.Finish? || a.RecordFailure? || a.RecordCancel?
    ensures tx.cid == t.conversationId && Touched(tx.cmd) == Some(t.id)
    ensures CallerOk(InMemory(aggs, tx.cid, tx.cmd).0, AfterTx(p, a, InMemory(aggs, tx.cid, tx.cmd).1))
  {
    OwnTurnCloses(aggs, p.command, t, tx.cmd);
    OwnTurnAfter(aggs, p.command, t, tx.cmd);
    var (aggs', r) := InMemory(aggs, tx.cid, tx.cmd);
    StageAfter(p, a, tx, r, aggs'[tx.cid], aggs'[tx.cid].turns[t.sequence - 1]);
  }

  /** A transaction about the caller's own turn. */
  lemma {:induction false} OwnTurnStep(s: State, a: Action)
    requires Safe(s) && Enabled(s, a) && (a.Finish? || a.RecordFailure? || a.RecordCancel?)
    ensures Safe(CallerStep(s, a))
  {
    var p := s.callers[a.caller];
    assert CallerOk(s.aggs, p);
    var t := p.turn.value;
    var tx := TxOf(p, a).value;
    OwnTurnCaller(s.aggs, p, a, t, tx);
    var p' := AfterTx(p, a, InMemory(s.aggs, tx.cid, tx.cmd).1);
    SameTurnClaims(s.callers, a.caller, p');
    TxStep(s, a, tx, p');
  }

  // ---------------------------------------------------------------------------------------------------------
  // Steps without one.

  lemma {:induction false} ReadGives(s: State, p: Caller, rows: seq<MessageRow>)
    requires AggregatesOk(s.aggs) && Represents(s.db, s.aggs) && CallerOk(s.aggs, p) && p.stage.Started?
    requires SelectsCompleted(s.db, p.command.conversationId, rows)
    ensures CallerOk(s.aggs, AfterRead(s.limits, p, rows))
  {
    var cid := p.command.conversationId;
    var bound := BoundedLimit(s.limits.messages, p.command.limit);
    if bound.Ok? && 1 <= bound.value <= 100 {
      HistoryIsRecent(s.db, s.aggs, cid, rows, bound.value);
      forall m | m in LastK(CompletedMessages(s.aggs[cid]), bound.value)
        ensures m in CompletedMessages(s.aggs[cid])
      {
        LastKIsPart(CompletedMessages(s.aggs[cid]), bound.value, m);
      }
    }
  }

  lemma {:induction false} LocalStays(s: State, p: Caller, a: Action)
    requires CallerOk(s.aggs, p) && StageFits(p, a) && TxOf(p, a) == None && !a.ReadHistory?
    ensures var p' := Local(s, p, a);
            CallerOk(s.aggs, p') && p'.turn == p.turn && p'.command == p.command &&
            (!BeforeGeneration(p.stage) ==> !BeforeGeneration(p'.stage))
  {
  }

  lemma {:induction false} LocalIsOk(s: State, a: Action)
    requires Safe(s) && Enabled(s, a) && !a.Create? && !a.ArchiveCall? && !a.Call?
    requires TxOf(s.callers[a.caller], a) == None
    ensures var p := s.callers[a.caller];
            var p' := Local(s, p, a);
            CallerOk(s.aggs, p') && p'.turn == p.turn && p'.command == p.command &&
            (!BeforeGeneration(p.stage) ==> !BeforeGeneration(p'.stage))
  {
    var p := s.callers[a.caller];
    assert CallerOk(s.aggs, p);
    if a.ReadHistory? {
      ReadGives(s, p, a.rows);
    } else {
      LocalStays(s, p, a);
    }
  }

  /** The request a caller sends is bounded, and made of completed turns and its own message. */
  lemma {:induction false} RequestIsOk(s: State, p: Caller, valid: bool)
    requires CallerOk(s.aggs, p) && p.stage.HistoryRead? && p.turn.Some?
    requires RequestFor(s.limits, p, valid).Ok?
    ensures RequestOk(s.limits, s.aggs[p.turn.value.conversationId], p.turn.value.user,
                      RequestFor(s.limits, p, valid).value)
    ensures RequestFor(s.limits, p, valid).value.correlationId == p.command.requestId
    ensures RequestFor(s.limits, p, valid).value.modelName == p.command.model
  {
    var t := p.turn.value;
    var limit := BoundedLimit(s.limits.messages, p.command.limit).value;
    var completed := CompletedMessages(s.aggs[t.conversationId]);
    var selected := RequestIsBounded(s.limits.messages, s.limits.characters, p.stage.history, t.user,
                                     p.command.requestId, limit, p.command.model, valid);
    assert GoodSelection(selected, completed, s.limits.messages, s.limits.characters - |t.user.content|);
  }

  lemma {:induction false} LocalStep(s: State, a: Action)
    requires Safe(s) && Enabled(s, a) && !a.Create? && !a.ArchiveCall? && !a.Call?
    requires TxOf(s.callers[a.caller], a) == None
    ensures Safe(CallerStep(s, a))
  {
    var k := a.caller;
    var p := s.callers[k];
    var p' := Local(s, p, a);
    LocalIsOk(s, a);
    NoProgress(s.aggs, None);
    SameTurnClaims(s.callers, k, p');
    MoveKeepsSafe(s, Move(s, k, p'), None, k, p');
    if a.BuildRequest? && p'.stage.Generating? {
      GenerateStep(s, a);
    }
  }

  /** A caller before its generation is the caller of none. */
  lemma {:induction false} NoneGenerated(s: State, k: nat)
    requires GenerationsOk(s.limits, s.aggs, s.callers, s.generations) && k < |s.callers|
    requires BeforeGeneration(s.callers[k].stage)
    ensures forall i :: 0 <= i < |s.generations| ==> s.generations[i].caller != k
  {
    forall i | 0 <= i < |s.generations|
      ensures s.generations[i].caller != k
    {
      assert GenerationOk(s.limits, s.aggs, s.callers, s.generations[i]);
    }
  }

  lemma {:induction false} GenerationIsOk(s: State, k: nat, p: Caller, valid: bool)
    requires CallerOk(s.aggs, p) && p.stage.HistoryRead? && p.turn.Some? && k < |s.callers|
    requires RequestFor(s.limits, p, valid).Ok?
    ensures var r := RequestFor(s.limits, p, valid).value;
            GenerationOk(s.limits, s.aggs, s.callers[k := p.(stage := Generating(r))], Generation(k, r))
  {
    RequestIsOk(s, p, valid);
  }

  /** A generation is added for a caller that had none. */
  lemma {:induction false} GenerateStep(s: State, a: Action)
    requires Safe(s) && Enabled(s, a) && a.BuildRequest?
    requires var p' := Local(s, s.callers[a.caller], a);
             p'.stage.Generating? && Safe(Move(s, a.caller, p'))
    ensures Safe(CallerStep(s, a))
  {
    var k := a.caller;
    var p := s.callers[k];
    var p' := Local(s, p, a);
    assert CallerOk(s.aggs, p);
    GenerationIsOk(s, k, p, a.valid);
    NoneGenerated(s, k);
  }

  lemma {:induction false} ArchiveStep(s: State, a: Action)
    requires Safe(s) && Enabled(s, a) && a.ArchiveCall?
    ensures Safe(Next(s, a))
  {
    var tx := Tx(a.cid, a.scan, ArchiveAt(a.at));
    TxKeepsStore(s, tx);
    StoreStep(s, RunTx(s, tx));
  }

  /** Tables and aggregates progress, no caller moves. */
  lemma {:induction false} StoreStep(s: State, s': State)
    requires Safe(s) && s' == s.(db := s'.db, aggs := s'.aggs)
    requires AggregatesOk(s'.aggs) && Represents(s'.db, s'.aggs) && Progress(s.aggs, s'.aggs, None)
    ensures Safe(s')
  {
    forall k | 0 <= k < |s.callers|
      ensures CallerOk(s'.aggs, s.callers[k])
    {
      assert CallerOk(s.aggs, s.callers[k]);
      CallerStays(s.aggs, s'.aggs, None, s.callers[k]);
    }
    forall g | 0 <= g < |s.generations|
      ensures GenerationOk(s.limits, s'.aggs, s.callers, s.generations[g])
    {
      var gen := s.generations[g];
      assert GenerationOk(s.limits, s.aggs, s.callers, gen);
      assert s.callers[gen.caller := s.callers[gen.caller]] == s.callers;
      GenerationStays(s.limits, s.aggs, s'.aggs, None, s.callers, gen.caller, s.callers[gen.caller], gen);
    }
  }

  lemma {:induction false} CreateProgress(aggs: Aggregates, id: Id, title: Option<string>, at: Time)
    ensures Progress(aggs, CreateInMemory(aggs, id, title, at), None)
  {
    NoProgress(aggs, None);
  }

  lemma {:induction false} CreateStep(s: State, a: Action)
    requires Safe(s) && a.Create?
    ensures Safe(Next(s, a))
  {
    CreateRefines(s.db, s.aggs, a.id, a.title, a.at);
    CreateProgress(s.aggs, a.id, a.title, a.at);
    StoreStep(s, Next(s, a));
  }

  lemma {:induction false} CallStep(s: State, a: Action)
    requires Safe(s) && a.Call?
    ensures Safe(Next(s, a))
  {
    var s' := Next(s, a);
    assert s'.callers == s.callers + [Caller(a.command, None, Ready)];
    forall g | 0 <= g < |s.generations|
      ensures GenerationOk(s.limits, s.aggs, s'.callers, s.generations[g])
    {
      assert GenerationOk(s.limits, s.aggs, s.callers, s.generations[g]);
    }
  }

  /** Main result: every step of every caller keeps the invariant. */
  lemma {:induction false} NextKeepsSafe(s: State, a: Action)
    requires Safe(s)
    ensures Safe(Next(s, a))
  {
    if !Enabled(s, a) {
    } else if a.Create? {
      CreateStep(s, a);
    } else if a.ArchiveCall? {
      ArchiveStep(s, a);
    } else if a.Call? {
      CallStep(s, a);
    } else if TxOf(s.callers[a.caller], a) == None {
      LocalStep(s, a);
    } else if a.StartPending? {
      StartStep(s, a);
    } else {
      OwnTurnStep(s, a);
    }
  }
}
