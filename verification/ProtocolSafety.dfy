/** What holds over every run of the chat protocol: any number of callers, archiving in between, every interleaving of
    their transactions. */
module ProtocolSafety {
  import opened Prelude
  import opened Text
  import opened Aggregate
  import opened AggregateInvariant
  import opened Mappers
  import opened RoundTrip
  import opened Loadability
  import opened Operations
  import opened Store
  import opened Transactions
  import opened ContextBuilder
  import opened Representation
  import opened Refinement
  import opened History
  import opened Protocol
  import opened ProtocolInvariant
  import opened ProtocolSteps

  lemma {:induction false} InitialIsSafe(limits: Limits)
    ensures Safe(Initial(limits))
  {
  }

  lemma {:induction false} RunKeepsSafe(s: State, actions: seq<Action>)
    requires Safe(s)
    ensures Safe(RunAll(s, actions))
    decreases |actions|
  {
    if actions != [] {
      NextKeepsSafe(s, actions[0]);
      RunKeepsSafe(Next(s, actions[0]), actions[1..]);
    }
  }

  /** A state some run reaches. */
  ghost predicate Reachable(s: State) {
    exists limits, actions :: s == RunAll(Initial(limits), actions)
  }

  lemma {:induction false} ReachableIsSafe(s: State)
    requires Reachable(s)
    ensures Safe(s)
  {
    var limits, actions :| s == RunAll(Initial(limits), actions);
    InitialIsSafe(limits);
    RunKeepsSafe(Initial(limits), actions);
  }

  /** Main result: after every run the three tables are the full serialisation of the aggregates that the domain
      operations alone would have produced, each of which satisfies the invariant of its operations. */
  lemma {:induction false} TablesAreSerialisation(s: State)
    requires Reachable(s)
    ensures Represents(s.db, s.aggs) && AggregatesOk(s.aggs)
    ensures forall db :: Represents(db, s.aggs) ==> db == s.db
  {
    ReachableIsSafe(s);
    forall db | Represents(db, s.aggs)
      ensures db == s.db
    {
      RepresentsUnique(db, s.db, s.aggs);
    }
  }

  // ---------------------------------------------------------------------------------------------------------
  // Schema constraints.

  /** Primary keys, unique constraints, foreign keys, check constraints and text lengths of the three tables. */
  predicate Lawful(db: Tables) {
    && Keyed(db)
    && (forall id :: id in db.turns ==> TurnLawful(db, id) && TurnColumnsLawful(db.turns[id]))
    && (forall id :: id in db.messages ==> MessageLawful(db, id))
    && (forall id :: id in db.conversations ==>
                       ConversationLawful(db.conversations[id]) && db.conversations[id].id == id)
  }

  /** A VARCHAR column of this length. */
  predicate Within(text: Option<string>, length: nat) {
    text.Some? ==> |text.value| <= length
  }

  predicate NotNegative(count: Option<int>) {
    count.Some? ==> count.value >= 0
  }

  predicate ConversationLawful(row: ConversationRow) {
    && row.nextSequence > 0 && Within(row.title, 200)
    && ((row.status == "active" && row.archivedAt == None) || (row.status == "archived" && row.archivedAt.Some?))
  }

  predicate TurnColumnsLawful(row: TurnRow) {
    && NotNegative(row.promptTokens) && NotNegative(row.completionTokens) && NotNegative(row.totalTokens)
    && Within(row.requestId, 128) && Within(row.key, 255) && Within(row.provider, 64) && Within(row.model, 255)
    && Within(row.finish, 64) && Within(row.errorCode, 128)
  }

  lemma {:induction false} TurnColumnsAreLawful(t: Turn)
    requires TurnOk(t)
    ensures TurnColumnsLawful(TurnToRow(t))
  {
  }

  lemma {:induction false} TurnIsOk(turns: TurnMap, aggs: Aggregates, id: Id)
    requires AggregatesOk(aggs) && TurnTable(turns, aggs) && id in turns
    ensures TurnColumnsLawful(turns[id])
  {
    TurnRowOf(turns, aggs, id);
    var c := aggs[turns[id].conversationId];
    assert AggregateOk(aggs, turns[id].conversationId);
    TurnColumnsAreLawful(c.turns[turns[id].sequence - 1]);
  }

  predicate TurnLawful(db: Tables, id: Id)
    requires id in db.turns
  {
    var row := db.turns[id];
    && row.conversationId in db.conversations && row.sequence > 0
    && row.status in {"pending", "completed", "failed", "cancelled"}
    && forall other :: other in db.turns && other != id && db.turns[other].conversationId == row.conversationId ==>
                         db.turns[other].sequence != row.sequence && (row.key.Some? ==> db.turns[other].key != row.key)
  }

  predicate MessageLawful(db: Tables, id: Id)
    requires id in db.messages
  {
    var row := db.messages[id];
    && row.conversationId in db.conversations && row.turnId in db.turns && row.sequence > 0 && !Blank(row.content)
    && row.role in {"user", "assistant"}
    && forall other :: other in db.messages && other != id ==>
                         (db.messages[other].conversationId == row.conversationId ==>
                            db.messages[other].sequence != row.sequence) &&
                         (db.messages[other].turnId == row.turnId ==> db.messages[other].role != row.role)
  }

  lemma {:induction false} TurnsDiffer(turns: TurnMap, aggs: Aggregates, id: Id, other: Id)
    requires TurnTable(turns, aggs) && id in turns && other in turns && id != other
    requires turns[other].conversationId == turns[id].conversationId
    requires turns[id].conversationId in aggs && DistinctKeys(aggs[turns[id].conversationId].turns)
    ensures turns[other].sequence != turns[id].sequence && (turns[id].key.Some? ==> turns[other].key != turns[id].key)
  {
    TurnRowOf(turns, aggs, id);
    TurnRowOf(turns, aggs, other);
    KeysDiffer(aggs[turns[id].conversationId].turns, turns[id].sequence - 1, turns[other].sequence - 1);
  }

  lemma {:induction false} TurnIsLawful(db: Tables, aggs: Aggregates, id: Id)
    requires RootTable(db.conversations, aggs) && TurnTable(db.turns, aggs) && AggregatesOk(aggs) && id in db.turns
    ensures TurnLawful(db, id)
  {
    TurnRowOf(db.turns, aggs, id);
    assert AggregateOk(aggs, db.turns[id].conversationId);
    forall other | other in db.turns && other != id && db.turns[other].conversationId == db.turns[id].conversationId
      ensures db.turns[other].sequence != db.turns[id].sequence
      ensures db.turns[id].key.Some? ==> db.turns[other].key != db.turns[id].key
    {
      TurnsDiffer(db.turns, aggs, id, other);
    }
  }

  lemma {:induction false} KeysDiffer(turns: seq<Turn>, i: nat, j: nat)
    requires DistinctKeys(turns) && i < |turns| && j < |turns| && i != j
    ensures turns[i].key.Some? ==> turns[j].key != turns[i].key
  {
  }

  lemma {:induction false} SequencesDiffer(messages: MessageMap, aggs: Aggregates, id: Id, other: Id)
    requires MessageTable(messages, aggs) && id in messages && other in messages && id != other
    ensures messages[other].conversationId == messages[id].conversationId ==>
              messages[other].sequence != messages[id].sequence
  {
    MessageRowOf(messages, aggs, id);
    MessageRowOf(messages, aggs, other);
  }

  lemma {:induction false} RolesDiffer(db: Tables, aggs: Aggregates, id: Id, other: Id)
    requires Numbered(aggs) && OwnersOk(aggs) && TurnTable(db.turns, aggs) && MessageTable(db.messages, aggs)
    requires id in db.messages && other in db.messages && id != other
    ensures db.messages[other].turnId == db.messages[id].turnId ==> db.messages[other].role != db.messages[id].role
  {
    var row, r := db.messages[id], db.messages[other];
    if r.turnId == row.turnId {
      var i := OwnerStored(db, aggs, id);
      var k := OwnerStored(db, aggs, other);
      OneTurnPerId(db, aggs, row.conversationId, i, r.conversationId, k);
      assert TurnOk(aggs[row.conversationId].turns[i]);
      MessageRowOf(db.messages, aggs, id);
      MessageRowOf(db.messages, aggs, other);
    }
  }

  lemma {:induction false} MessageIsLawful(db: Tables, aggs: Aggregates, id: Id)
    requires AggregatesOk(aggs) && Represents(db, aggs) && id in db.messages
    ensures MessageLawful(db, id)
  {
    var row := db.messages[id];
    OkIsNumbered(aggs);
    OkIsOwned(aggs);
    MessageRowOf(db.messages, aggs, id);
    var k := OwnerStored(db, aggs, id);
    assert AggregateOk(aggs, row.conversationId);
    MessagesAreValid(aggs[row.conversationId], row.sequence - 1);
    forall other | other in db.messages && other != id
      ensures db.messages[other].conversationId == row.conversationId ==> db.messages[other].sequence != row.sequence
      ensures db.messages[other].turnId == row.turnId ==> db.messages[other].role != row.role
    {
      SequencesDiffer(db.messages, aggs, id, other);
      RolesDiffer(db, aggs, id, other);
    }
  }

  /** Main result: no run ever violates a constraint of the schema. */
  lemma {:induction false} TablesAreLawful(s: State)
    requires Reachable(s)
    ensures Lawful(s.db)
  {
    ReachableIsSafe(s);
    RepresentsKeyed(s.db, s.aggs);
    forall id | id in s.db.turns
      ensures TurnLawful(s.db, id) && TurnColumnsLawful(s.db.turns[id])
    {
      TurnIsLawful(s.db, s.aggs, id);
      TurnIsOk(s.db.turns, s.aggs, id);
    }
    forall id | id in s.db.messages
      ensures MessageLawful(s.db, id)
    {
      MessageIsLawful(s.db, s.aggs, id);
    }
    forall id | id in s.db.conversations
      ensures ConversationLawful(s.db.conversations[id]) && s.db.conversations[id].id == id
    {
      assert AggregateOk(s.aggs, id);
    }
  }

  // ---------------------------------------------------------------------------------------------------------
  // What later states keep.

  predicate AllEvolve(aggs: Aggregates, aggs': Aggregates) {
    forall cid {:trigger Evolves(aggs[cid], aggs'[cid])} {:trigger cid in aggs'} ::
      cid in aggs ==> cid in aggs' && Evolves(aggs[cid], aggs'[cid])
  }

  lemma {:induction false} EvolvesTransitively(a: Aggregates, b: Aggregates, c: Aggregates)
    requires AllEvolve(a, b) && AllEvolve(b, c)
    ensures AllEvolve(a, c)
  {
    forall cid | cid in a
      ensures cid in c && Evolves(a[cid], c[cid])
    {
      assert cid in b && cid in c;
      assert Evolves(a[cid], b[cid]) && Evolves(b[cid], c[cid]);
      EvolvesTransitive(a[cid], b[cid], c[cid]);
    }
  }

  lemma {:induction false} ProgressEvolves(aggs: Aggregates, aggs': Aggregates, touched: Option<Id>)
    requires Progress(aggs, aggs', touched)
    ensures AllEvolve(aggs, aggs')
  {
    forall cid | cid in aggs
      ensures cid in aggs' && Evolves(aggs[cid], aggs'[cid])
    {
      assert cid in aggs' && ConversationProgress(aggs[cid], aggs'[cid], touched);
    }
  }

  /** The transaction of a step, for whoever runs it. */
  function StepTx(s: State, a: Action): Option<Tx> {
    if !Enabled(s, a) || a.Create? || a.Call? then None
    else if a.ArchiveCall? then Some(Tx(a.cid, a.scan, ArchiveAt(a.at)))
    else TxOf(s.callers[a.caller], a)
  }

  lemma {:induction false} StepAggregates(s: State, a: Action)
    ensures var tx := StepTx(s, a);
            Next(s, a).aggs ==
            if tx.Some? then InMemory(s.aggs, tx.value.cid, tx.value.cmd).0
            else if a.Create? then CreateInMemory(s.aggs, a.id, a.title, a.at)
            else s.aggs
    ensures StepTx(s, a).Some? ==> TxFits(s.db, StepTx(s, a).value)
  {
  }

  lemma {:induction false} NextEvolves(s: State, a: Action)
    requires Safe(s)
    ensures AllEvolve(s.aggs, Next(s, a).aggs)
  {
    StepAggregates(s, a);
    if StepTx(s, a).Some? {
      var tx := StepTx(s, a).value;
      InMemoryProgress(s.db, s.aggs, tx.cid, tx.cmd);
      ProgressEvolves(s.aggs, Next(s, a).aggs, Touched(tx.cmd));
    } else if a.Create? {
      CreateProgress(s.aggs, a.id, a.title, a.at);
      ProgressEvolves(s.aggs, Next(s, a).aggs, None);
    } else {
      NoProgress(s.aggs, None);
      ProgressEvolves(s.aggs, s.aggs, None);
    }
  }

  lemma {:induction false} RunEvolves(s: State, actions: seq<Action>)
    requires Safe(s)
    ensures AllEvolve(s.aggs, RunAll(s, actions).aggs)
    decreases |actions|
  {
    if actions == [] {
      NoProgress(s.aggs, None);
      ProgressEvolves(s.aggs, s.aggs, None);
    } else {
      NextKeepsSafe(s, actions[0]);
      NextEvolves(s, actions[0]);
      RunEvolves(Next(s, actions[0]), actions[1..]);
      EvolvesTransitively(s.aggs, Next(s, actions[0]).aggs, RunAll(s, actions).aggs);
    }
  }

  /** A stored turn later: unchanged, or closed since, its identity, request and key kept. */
  predicate TurnRowKept(row: TurnRow, later: TurnRow) {
    later == row ||
    (row.status == "pending" && later.status != "pending" &&
     later.id == row.id && later.conversationId == row.conversationId && later.sequence == row.sequence &&
     later.requestId == row.requestId && later.key == row.key && later.createdAt == row.createdAt)
  }

  /** A stored conversation later: its identity, title and creation are kept, it only goes on, and archiving is final. */
  predicate ConversationRowKept(row: ConversationRow, later: ConversationRow) {
    && later.id == row.id && later.title == row.title && later.createdAt == row.createdAt
    && row.updatedAt <= later.updatedAt && row.nextSequence <= later.nextSequence
    && (row.status == "archived" ==>
          later.status == "archived" && later.archivedAt == row.archivedAt && later.nextSequence == row.nextSequence)
  }

  /** Main result: a turn row leaves pending at most once and is frozen from then on; a message row never changes; a
      conversation keeps its identity and its archiving is final; no row ever disappears. */
  lemma {:induction false} RowsAreKept(s: State, actions: seq<Action>)
    requires Reachable(s)
    ensures var s' := RunAll(s, actions);
            (forall id :: id in s.db.turns ==> id in s'.db.turns && TurnRowKept(s.db.turns[id], s'.db.turns[id])) &&
            (forall id :: id in s.db.messages ==> id in s'.db.messages && s'.db.messages[id] == s.db.messages[id]) &&
            (forall id :: id in s.db.conversations ==>
                            id in s'.db.conversations &&
                            ConversationRowKept(s.db.conversations[id], s'.db.conversations[id]))
  {
    var s' := RunAll(s, actions);
    ReachableIsSafe(s);
    RunKeepsSafe(s, actions);
    RunEvolves(s, actions);
    forall id | id in s.db.turns
      ensures id in s'.db.turns && TurnRowKept(s.db.turns[id], s'.db.turns[id])
    {
      TurnRowIsKept(s.db, s.aggs, s'.db, s'.aggs, id);
    }
    forall id | id in s.db.messages
      ensures id in s'.db.messages && s'.db.messages[id] == s.db.messages[id]
    {
      MessageRowIsKept(s.db, s.aggs, s'.db, s'.aggs, id);
    }
    forall id | id in s.db.conversations
      ensures id in s'.db.conversations && ConversationRowKept(s.db.conversations[id], s'.db.conversations[id])
    {
      assert id in s'.aggs && Evolves(s.aggs[id], s'.aggs[id]);
      assert AggregateOk(s.aggs, id) && AggregateOk(s'.aggs, id);
      RootRowIsKept(s.aggs[id], s'.aggs[id]);
    }
  }

  lemma {:induction false} RootRowIsKept(c: Conversation, c': Conversation)
    requires Evolves(c, c') && c.nextMessage == |c.messages| + 1 && c'.nextMessage == |c'.messages| + 1
    ensures ConversationRowKept(ConversationToRow(c), ConversationToRow(c'))
  {
  }

  lemma {:induction false} TurnRowIsKept(db: Tables, aggs: Aggregates, db': Tables, aggs': Aggregates, id: Id)
    requires TurnTable(db.turns, aggs) && TurnTable(db'.turns, aggs') && AllEvolve(aggs, aggs') && id in db.turns
    ensures id in db'.turns && TurnRowKept(db.turns[id], db'.turns[id])
  {
    TurnRowOf(db.turns, aggs, id);
    var row := db.turns[id];
    var cid, i := row.conversationId, row.sequence - 1;
    assert cid in aggs' && Evolves(aggs[cid], aggs'[cid]);
    assert TurnEvolves(aggs[cid].turns[i], aggs'[cid].turns[i]);
    assert TurnsStored(db'.turns, aggs'[cid]);
    assert TurnStored(db'.turns, aggs'[cid].turns[i]);
  }

  lemma {:induction false} MessageRowIsKept(db: Tables, aggs: Aggregates, db': Tables, aggs': Aggregates, id: Id)
    requires MessageTable(db.messages, aggs) && MessageTable(db'.messages, aggs') && AllEvolve(aggs, aggs')
    requires id in db.messages
    ensures id in db'.messages && db'.messages[id] == db.messages[id]
  {
    MessageRowOf(db.messages, aggs, id);
    var row := db.messages[id];
    var cid, j := row.conversationId, row.sequence - 1;
    assert cid in aggs' && Evolves(aggs[cid], aggs'[cid]);
    assert aggs'[cid].messages[j] == aggs[cid].messages[j];
    assert MessagesStored(db'.messages, aggs'[cid]);
    assert MessageStored(db'.messages, aggs'[cid].messages[j]);
  }

  // ---------------------------------------------------------------------------------------------------------
  // At most one generation.

  /** Main result: two generations of a run are for different callers and different turns, and never for the same
      conversation and the same trimmed idempotency key. */
  lemma {:induction false} OneGeneration(s: State, g: nat, h: nat)
    requires Reachable(s) && g < h < |s.generations|
    ensures s.generations[g].caller < |s.callers| && s.generations[h].caller < |s.callers|
    ensures var p, q := s.callers[s.generations[g].caller], s.callers[s.generations[h].caller];
            p.turn.Some? && q.turn.Some? && p.turn.value.id != q.turn.value.id &&
            (p.command.conversationId == q.command.conversationId && p.command.key.Some? && q.command.key.Some? ==>
               Strip(p.command.key.value) != Strip(q.command.key.value))
  {
    ReachableIsSafe(s);
    var a, b := s.generations[g].caller, s.generations[h].caller;
    assert GenerationOk(s.limits, s.aggs, s.callers, s.generations[g]);
    assert GenerationOk(s.limits, s.aggs, s.callers, s.generations[h]);
    assert s.generations[g].caller != s.generations[h].caller;
    var p, q := s.callers[a], s.callers[b];
    assert CallerOk(s.aggs, p) && CallerOk(s.aggs, q);
    if a < b {
      assert s.callers[a].turn.value.id != s.callers[b].turn.value.id;
    } else {
      assert s.callers[b].turn.value.id != s.callers[a].turn.value.id;
    }
    if p.command.conversationId == q.command.conversationId {
      assert AggregateOk(s.aggs, p.command.conversationId);
      OwnKeysDiffer(s.aggs, p, q);
    }
  }

  lemma {:induction false} OwnKeysDiffer(aggs: Aggregates, p: Caller, q: Caller)
    requires p.turn.Some? && q.turn.Some? && p.turn.value.id != q.turn.value.id
    requires HasTurn(aggs, p.command, p.turn.value) && HasTurn(aggs, q.command, q.turn.value)
    requires p.command.conversationId == q.command.conversationId
    requires DistinctKeys(aggs[p.command.conversationId].turns)
    ensures p.command.key.Some? && q.command.key.Some? ==> Strip(p.command.key.value) != Strip(q.command.key.value)
  {
    var turns := aggs[p.command.conversationId].turns;
    var i, j := p.turn.value.sequence - 1, q.turn.value.sequence - 1;
    assert TurnEvolves(p.turn.value, turns[i]) && TurnEvolves(q.turn.value, turns[j]);
    KeysDiffer(turns, i, j);
  }

  /** Main result: what is sent to the model is the caller's own message after messages of completed turns only, in
      sequence order, within the bounds on count and characters. */
  lemma {:induction false} RequestsAreBounded(s: State, g: nat) returns (selected: seq<Message>)
    requires Reachable(s) && g < |s.generations|
    ensures s.generations[g].caller < |s.callers| && s.callers[s.generations[g].caller].turn.Some?
    ensures var user := s.callers[s.generations[g].caller].turn.value.user;
            user.conversationId in s.aggs && |user.content| <= s.limits.characters &&
            Speaks(s.generations[g].request.messages, selected, user) &&
            GoodSelection(selected, CompletedMessages(s.aggs[user.conversationId]), s.limits.messages,
                          s.limits.characters - |user.content|)
    ensures var command := s.callers[s.generations[g].caller].command;
            s.callers[s.generations[g].caller].turn.value.user.content == command.content &&
            s.generations[g].request.correlationId == command.requestId &&
            s.generations[g].request.modelName == command.model
    ensures forall m :: m in selected ==> StoredAsCompleted(s.db, m)
  {
    ReachableIsSafe(s);
    assert GenerationOk(s.limits, s.aggs, s.callers, s.generations[g]);
    var p := s.callers[s.generations[g].caller];
    assert CallerOk(s.aggs, p);
    var t := p.turn.value;
    assert AggregateOk(s.aggs, t.conversationId);
    UserInConversation(s.aggs, p.command, t);
    selected :|
      GoodSelection(selected, CompletedMessages(s.aggs[t.conversationId]), s.limits.messages,
                    s.limits.characters - |t.user.content|) &&
      Speaks(s.generations[g].request.messages, selected, t.user);
    forall m | m in selected
      ensures StoredAsCompleted(s.db, m)
    {
      KeptIsStored(s.db, s.aggs, t.conversationId, m);
    }
  }

  /** The message's row holds its text, and its turn's row says completed. */
  predicate StoredAsCompleted(db: Tables, m: Message) {
    && m.id in db.messages && db.messages[m.id].content == m.content && db.messages[m.id].sequence == m.sequence
    && m.turnId in db.turns && db.turns[m.turnId].status == "completed"
  }

  /** Main result: reading only the last messages loses nothing. The request built from the rows read is the request
      the builder would make of all messages of completed turns in the conversation at that moment. */
  lemma {:induction false} FullHistoryGivesSameRequest(s: State, p: Caller, rows: seq<MessageRow>, valid: bool)
    requires Reachable(s) && p.command.conversationId in s.aggs && p.turn.Some?
    requires SelectsCompleted(s.db, p.command.conversationId, rows) && AfterRead(s.limits, p, rows).stage.HistoryRead?
    ensures RequestFor(s.limits, AfterRead(s.limits, p, rows), valid) ==
            Build(s.limits.messages, s.limits.characters, CompletedMessages(s.aggs[p.command.conversationId]),
                  p.turn.value.user, p.command.requestId, p.command.limit, p.command.model, valid)
  {
    ReachableIsSafe(s);
    var cid := p.command.conversationId;
    var limit := BoundedLimit(s.limits.messages, p.command.limit).value;
    HistoryIsRecent(s.db, s.aggs, cid, rows, limit);
    assert AggregateOk(s.aggs, cid);
    CompletedSorted(s.aggs[cid]);
    CutHistoryIsEnough(s.limits.messages, s.limits.characters, CompletedMessages(s.aggs[cid]), p.turn.value.user,
                       p.command.requestId, limit, p.command.model, valid, limit);
  }

  lemma {:induction false} UserInConversation(aggs: Aggregates, command: ChatCommand, t: Turn)
    requires HasTurn(aggs, command, t) && TurnsOk(aggs[t.conversationId].turns)
    ensures t.user.conversationId == t.conversationId
  {
    var now := aggs[t.conversationId].turns[t.sequence - 1];
    assert TurnEvolves(t, now);
    assert TurnOk(now);
  }

  // ---------------------------------------------------------------------------------------------------------
  // Outcomes.

  predicate HasAnswer(messages: MessageMap, turnId: Id, text: string, at: Time) {
    exists id :: id in messages && messages[id].turnId == turnId && messages[id].role == "assistant" &&
                 messages[id].content == text && messages[id].createdAt == at
  }

  lemma {:induction false} AnswerIsStored(messages: MessageMap, aggs: Aggregates, cid: Id, i: nat)
    requires MessageTable(messages, aggs) && AggregatesOk(aggs) && cid in aggs && i < |aggs[cid].turns|
    requires aggs[cid].turns[i].assistant.Some?
    ensures var m := aggs[cid].turns[i].assistant.value;
            HasAnswer(messages, aggs[cid].turns[i].id, m.content, m.createdAt)
  {
    var c := aggs[cid];
    var m := c.turns[i].assistant.value;
    assert AggregateOk(aggs, cid);
    assert TurnOk(c.turns[i]);
    assert Holds(c.messages, m);
    assert MessagesStored(messages, c);
    assert MessageStored(messages, c.messages[m.sequence - 1]);
    assert messages[m.id].content == m.content;
  }

  /** The row of a completed turn, column by column. */
  predicate AnswerRecorded(row: TurnRow, a: Completion) {
    && row.status == "completed" && row.completedAt == Some(a.at) && row.updatedAt == a.at && row.errorCode == None
    && row.provider == StripText(a.provider) && row.model == StripText(a.model) && row.finish == StripText(a.finish)
    && row.promptTokens == (if a.usage == None then None else Tokens(a.usage.value.prompt))
    && row.completionTokens == (if a.usage == None then None else Tokens(a.usage.value.completion))
    && row.totalTokens == (if a.usage == None then None else Tokens(a.usage.value.total))
  }

  /** The row of a turn whose call has ended, by outcome. */
  predicate RowAgrees(row: TurnRow, outcome: Outcome) {
    match outcome
    case Refused(_) => false
    case Returned(answer) => AnswerRecorded(row, answer)
    case GenerationFailed(code) =>
      row.status == "pending" || (row.status == "failed" && row.errorCode == Some(Strip(code)))
    case CancelledCall => row.status == "cancelled" || row.status == "pending"
    case Stopped => row.status == "pending"
  }

  lemma {:induction false} CompletedRow(now: Turn, a: Completion)
    requires TurnOk(now) && CompletedWith(now, a)
    ensures AnswerRecorded(TurnToRow(now), a)
  {
  }

  lemma {:induction false} OutcomeRow(c: Conversation, now: Turn, outcome: Outcome)
    requires TurnOk(now) && StageAgrees(Done(outcome), c, now)
    ensures RowAgrees(TurnToRow(now), outcome)
  {
    if outcome.Returned? {
      CompletedRow(now, outcome.answer);
    }
  }

  predicate OutcomeStored(db: Tables, turnId: Id, outcome: Outcome) {
    turnId in db.turns && RowAgrees(db.turns[turnId], outcome) &&
    (outcome.Returned? ==> HasAnswer(db.messages, turnId, outcome.answer.content, outcome.answer.at))
  }

  /** The row of a caller's turn. */
  lemma {:induction false} OwnRow(turns: TurnMap, aggs: Aggregates, command: ChatCommand, t: Turn)
    requires TurnTable(turns, aggs) && HasTurn(aggs, command, t)
    ensures t.id in turns && turns[t.id] == TurnToRow(aggs[t.conversationId].turns[t.sequence - 1])
  {
    assert TurnEvolves(t, aggs[t.conversationId].turns[t.sequence - 1]);
    assert TurnsStored(turns, aggs[t.conversationId]);
    assert TurnStored(turns, aggs[t.conversationId].turns[t.sequence - 1]);
  }

  lemma {:induction false} OwnTurnIs(aggs: Aggregates, command: ChatCommand, t: Turn)
    requires AggregatesOk(aggs) && HasTurn(aggs, command, t)
    ensures TurnOk(aggs[t.conversationId].turns[t.sequence - 1])
    ensures aggs[t.conversationId].turns[t.sequence - 1].id == t.id
  {
    assert AggregateOk(aggs, t.conversationId);
    assert TurnEvolves(t, aggs[t.conversationId].turns[t.sequence - 1]);
  }

  /** Main result: a returned result means the turn is stored as completed, with exactly that answer, its time and its
      metadata; a generation error means failed with that error code, or still pending; a cancelled generation means
      cancelled or still pending; a call that stopped otherwise leaves its turn pending. */
  lemma {:induction false} OutcomesAgree(s: State, k: nat)
    requires Reachable(s) && k < |s.callers| && s.callers[k].stage.Done? && s.callers[k].turn.Some?
    ensures OutcomeStored(s.db, s.callers[k].turn.value.id, s.callers[k].stage.outcome)
  {
    ReachableIsSafe(s);
    var p := s.callers[k];
    assert CallerOk(s.aggs, p);
    var t := p.turn.value;
    OwnRow(s.db.turns, s.aggs, p.command, t);
    OwnTurnIs(s.aggs, p.command, t);
    OutcomeRow(s.aggs[t.conversationId], s.aggs[t.conversationId].turns[t.sequence - 1], p.stage.outcome);
    if p.stage.outcome.Returned? {
      AnswerIsStored(s.db.messages, s.aggs, t.conversationId, t.sequence - 1);
    }
  }

  // ---------------------------------------------------------------------------------------------------------
  // When completion succeeds.

  /** The texts an answer carries fit their columns. */
  predicate CompletionFits(a: Completion) {
    Fits(a.provider, 64) && Fits(a.model, 255) && Fits(a.finish, 64)
  }

  /** Main result: an answered call returns exactly when, at the moment its last transaction takes the lock, the
      conversation is active and was not touched after the time the call read before taking it, and the texts of the
      answer fit. Otherwise it stops and its turn stays pending. */
  lemma {:induction false} FinishesIff(s: State, a: Action)
    requires Reachable(s) && a.Finish? && Enabled(s, a)
    ensures s.callers[a.caller].command.conversationId in s.db.conversations
    ensures var p := s.callers[a.caller];
            var row := s.db.conversations[p.command.conversationId];
            var completion := p.stage.completion;
            var outcome := Next(s, a).callers[a.caller].stage;
            if row.status == "active" && row.updatedAt <= completion.at && CompletionFits(completion)
            then outcome == Done(Returned(completion))
            else outcome == Done(Stopped)
  {
    ReachableIsSafe(s);
    var p := s.callers[a.caller];
    assert CallerOk(s.aggs, p);
    var tx := TxOf(p, a).value;
    FinishTx(s.aggs, p, a, tx);
    TxKeepsStore(s, tx);
  }

  lemma {:induction false} FinishTx(aggs: Aggregates, p: Caller, a: Action, tx: Tx)
    requires AggregatesOk(aggs) && CallerOk(aggs, p) && a.Finish? && p.stage.Answered? && TxOf(p, a) == Some(tx)
    ensures tx.cid == p.command.conversationId && tx.cid in aggs
    ensures InMemory(aggs, tx.cid, tx.cmd).1.Ok? <==>
            aggs[tx.cid].status == Active && aggs[tx.cid].updatedAt <= p.stage.completion.at &&
            CompletionFits(p.stage.completion)
  {
    var t := p.turn.value;
    assert AggregateOk(aggs, t.conversationId);
    OwnTurnNow(aggs, p, t);
    FinishesInMemory(aggs, t.conversationId, t.sequence - 1, a.messageId, p.stage.completion);
  }

  lemma {:induction false} OwnTurnNow(aggs: Aggregates, p: Caller, t: Turn)
    requires CallerOk(aggs, p) && p.turn == Some(t) && p.stage.Answered?
    ensures t.conversationId == p.command.conversationId && t.conversationId in aggs
    ensures 1 <= t.sequence <= |aggs[t.conversationId].turns|
    ensures var now := aggs[t.conversationId].turns[t.sequence - 1]; now.id == t.id && now.status == Pending
    ensures !Blank(p.stage.completion.content)
  {
    assert TurnEvolves(t, aggs[t.conversationId].turns[t.sequence - 1]);
  }

  lemma {:induction false} FinishesInMemory(aggs: Aggregates, cid: Id, i: nat, messageId: Id, a: Completion)
    requires cid in aggs && AggregateOk(aggs, cid)
    requires i < |aggs[cid].turns| && aggs[cid].turns[i].status == Pending && !Blank(a.content)
    ensures InMemory(aggs, cid, Complete(aggs[cid].turns[i].id, messageId, a.content, a.provider, a.model, a.finish,
                                         a.usage, a.at)).1.Ok? <==>
            aggs[cid].status == Active && aggs[cid].updatedAt <= a.at && CompletionFits(a)
  {
    CompleteOutcome(aggs[cid], Complete(aggs[cid].turns[i].id, messageId, a.content, a.provider, a.model, a.finish,
                                        a.usage, a.at), i);
  }

  // ---------------------------------------------------------------------------------------------------------
  // Conversations that stop being loadable.

  /** Main result: a loadable conversation becomes unloadable exactly by a failure or cancellation committed after its
      archiving, at a strictly later time. */
  lemma {:induction false} UnloadedByLateClose(s: State, a: Action, cid: Id)
    requires Reachable(s) && cid in s.aggs && Loadable(s.aggs[cid])
    ensures cid in Next(s, a).aggs
    ensures !Loadable(Next(s, a).aggs[cid]) <==>
            StepTx(s, a).Some? && StepTx(s, a).value.cid == cid &&
            LateClose(s.aggs[cid], StepTx(s, a).value.cmd) && Apply(s.aggs[cid], StepTx(s, a).value.cmd).Ok?
  {
    ReachableIsSafe(s);
    StepAggregates(s, a);
    assert AggregateOk(s.aggs, cid);
    if StepTx(s, a).Some? && StepTx(s, a).value.cid == cid && Apply(s.aggs[cid], StepTx(s, a).value.cmd).Ok? {
      LoadableAfter(s.aggs[cid], StepTx(s, a).value.cmd);
    }
  }

  lemma {:induction false} NextFrozen(s: State, a: Action, cid: Id)
    requires cid in s.aggs && !Loadable(s.aggs[cid])
    ensures cid in Next(s, a).aggs && Next(s, a).aggs[cid] == s.aggs[cid]
  {
    StepAggregates(s, a);
  }

  lemma {:induction false} RunFrozen(s: State, actions: seq<Action>, cid: Id)
    requires cid in s.aggs && !Loadable(s.aggs[cid])
    ensures cid in RunAll(s, actions).aggs && RunAll(s, actions).aggs[cid] == s.aggs[cid]
    decreases |actions|
  {
    if actions != [] {
      NextFrozen(s, actions[0], cid);
      RunFrozen(Next(s, actions[0]), actions[1..], cid);
    }
  }

  /** Every row of the conversation in `db` is also in `db'`. */
  predicate RowsIncluded(db: Tables, db': Tables, cid: Id) {
    && (forall id :: id in db.turns && db.turns[id].conversationId == cid ==>
                       id in db'.turns && db'.turns[id] == db.turns[id])
    && (forall id :: id in db.messages && db.messages[id].conversationId == cid ==>
                       id in db'.messages && db'.messages[id] == db.messages[id])
  }

  lemma {:induction false} SameAggregateSameRows(db: Tables, aggs: Aggregates, db': Tables, aggs': Aggregates, cid: Id)
    requires Represents(db, aggs) && Represents(db', aggs') && cid in aggs && cid in aggs' && aggs'[cid] == aggs[cid]
    ensures RowsIncluded(db, db', cid)
  {
    assert TurnsStored(db'.turns, aggs'[cid]) && MessagesStored(db'.messages, aggs'[cid]);
    forall id | id in db.turns && db.turns[id].conversationId == cid
      ensures id in db'.turns && db'.turns[id] == db.turns[id]
    {
      TurnRowOf(db.turns, aggs, id);
      assert TurnStored(db'.turns, aggs[cid].turns[db.turns[id].sequence - 1]);
    }
    forall id | id in db.messages && db.messages[id].conversationId == cid
      ensures id in db'.messages && db'.messages[id] == db.messages[id]
    {
      MessageRowOf(db.messages, aggs, id);
      assert MessageStored(db'.messages, aggs[cid].messages[db.messages[id].sequence - 1]);
    }
  }

  /** Main result: once its load is rejected, no later step of any caller changes any row of the conversation or adds
      one, and every later load is rejected too. */
  lemma {:induction false} UnloadableIsFrozen(s: State, actions: seq<Action>, cid: Id)
    requires Reachable(s) && cid in s.aggs && !Loadable(s.aggs[cid])
    ensures var db, db' := s.db, RunAll(s, actions).db;
            cid in db.conversations && cid in db'.conversations && db'.conversations[cid] == db.conversations[cid] &&
            RowsIncluded(db, db', cid) && RowsIncluded(db', db, cid) &&
            forall scan :: Scans(db', cid, scan) ==> Loaded(db', cid, scan) == Err(InvalidValue)
  {
    var s' := RunAll(s, actions);
    ReachableIsSafe(s);
    RunKeepsSafe(s, actions);
    RunFrozen(s, actions, cid);
    SameAggregateSameRows(s.db, s.aggs, s'.db, s'.aggs, cid);
    SameAggregateSameRows(s'.db, s'.aggs, s.db, s.aggs, cid);
    assert AggregateOk(s'.aggs, cid);
    forall scan | Scans(s'.db, cid, scan)
      ensures Loaded(s'.db, cid, scan) == Err(InvalidValue)
    {
      LoadRepresented(s'.db, s'.aggs, cid, scan);
    }
  }
}
