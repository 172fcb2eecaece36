/** The three tables as the full serialisation of a set of aggregates: what a load then returns, and why the few rows a
    transaction writes are enough to keep them so. */
module Representation {
  import opened Prelude
  import opened Aggregate
  import opened AggregateInvariant
  import opened Mappers
  import opened Permutations
  import opened RoundTrip
  import opened LoaderSoundness
  import opened Store
  import opened Transactions

  /** The aggregates by conversation id. */
  type Aggregates = map<Id, Conversation>

  /** Loading would give the same value: no usage without counts. */
  predicate Normal(c: Conversation) {
    forall i :: 0 <= i < |c.turns| ==> NormTurn(c.turns[i]) == c.turns[i]
  }

  predicate AggregateOk(aggs: Aggregates, cid: Id)
    requires cid in aggs
  {
    aggs[cid].id == cid && Inv(aggs[cid]) && Normal(aggs[cid])
  }

  predicate AggregatesOk(aggs: Aggregates) {
    forall cid {:trigger AggregateOk(aggs, cid)} :: cid in aggs ==> AggregateOk(aggs, cid)
  }

  /** The part of AggregatesOk that says where a row's entity sits. */
  predicate Numbered(aggs: Aggregates) {
    forall cid :: cid in aggs ==>
                    aggs[cid].id == cid &&
                    TurnsNumbered(aggs[cid].turns, cid) && DistinctTurnIds(aggs[cid].turns) &&
                    MessagesNumbered(aggs[cid].messages, cid) && DistinctMessageIds(aggs[cid].messages)
  }

  lemma {:induction false} OkIsNumbered(aggs: Aggregates)
    requires AggregatesOk(aggs)
    ensures Numbered(aggs)
  {
    forall cid | cid in aggs
      ensures aggs[cid].id == cid
      ensures TurnsNumbered(aggs[cid].turns, cid) && DistinctTurnIds(aggs[cid].turns)
      ensures MessagesNumbered(aggs[cid].messages, cid) && DistinctMessageIds(aggs[cid].messages)
    {
      assert AggregateOk(aggs, cid);
    }
  }

  // ---------------------------------------------------------------------------------------------------------
  // Each table against the aggregates.

  type TurnMap = map<Id, TurnRow>

  type MessageMap = map<Id, MessageRow>

  predicate TurnStored(turns: TurnMap, t: Turn) {
    t.id in turns && turns[t.id] == TurnToRow(t)
  }

  predicate MessageStored(messages: MessageMap, m: Message) {
    m.id in messages && messages[m.id] == MessageToRow(m)
  }

  predicate TurnsStored(turns: TurnMap, c: Conversation) {
    forall i :: 0 <= i < |c.turns| ==> TurnStored(turns, c.turns[i])
  }

  predicate MessagesStored(messages: MessageMap, c: Conversation) {
    forall j :: 0 <= j < |c.messages| ==> MessageStored(messages, c.messages[j])
  }

  /** The row's place in its aggregate is taken by the turn with its id. */
  predicate TurnBelongs(aggs: Aggregates, id: Id, row: TurnRow) {
    row.conversationId in aggs &&
    var c := aggs[row.conversationId];
    1 <= row.sequence <= |c.turns| && c.turns[row.sequence - 1].id == id
  }

  predicate MessageBelongs(aggs: Aggregates, id: Id, row: MessageRow) {
    row.conversationId in aggs &&
    var c := aggs[row.conversationId];
    1 <= row.sequence <= |c.messages| && c.messages[row.sequence - 1].id == id
  }

  predicate RootTable(conversations: map<Id, ConversationRow>, aggs: Aggregates) {
    conversations.Keys == aggs.Keys &&
    forall cid :: cid in aggs ==> conversations[cid] == ConversationToRow(aggs[cid])
  }

  predicate TurnTable(turns: TurnMap, aggs: Aggregates) {
    (forall cid {:trigger TurnsStored(turns, aggs[cid])} :: cid in aggs ==> TurnsStored(turns, aggs[cid])) &&
    (forall id :: id in turns ==> TurnBelongs(aggs, id, turns[id]))
  }

  predicate MessageTable(messages: MessageMap, aggs: Aggregates) {
    (forall cid {:trigger MessagesStored(messages, aggs[cid])} :: cid in aggs ==> MessagesStored(messages, aggs[cid])) &&
    (forall id :: id in messages ==> MessageBelongs(aggs, id, messages[id]))
  }

  /** The tables hold a row for every entity of every aggregate, with all of its columns, and no other row. */
  predicate Represents(db: Tables, aggs: Aggregates) {
    RootTable(db.conversations, aggs) && TurnTable(db.turns, aggs) && MessageTable(db.messages, aggs)
  }

  lemma {:induction false} TurnRowOf(turns: TurnMap, aggs: Aggregates, id: Id)
    requires TurnTable(turns, aggs) && id in turns
    ensures var row := turns[id];
            TurnBelongs(aggs, id, row) && row == TurnToRow(aggs[row.conversationId].turns[row.sequence - 1])
  {
    var row := turns[id];
    assert TurnBelongs(aggs, id, row);
    assert TurnsStored(turns, aggs[row.conversationId]);
    assert TurnStored(turns, aggs[row.conversationId].turns[row.sequence - 1]);
  }

  lemma {:induction false} MessageRowOf(messages: MessageMap, aggs: Aggregates, id: Id)
    requires MessageTable(messages, aggs) && id in messages
    ensures var row := messages[id];
            MessageBelongs(aggs, id, row) && row == MessageToRow(aggs[row.conversationId].messages[row.sequence - 1])
  {
    var row := messages[id];
    assert MessageBelongs(aggs, id, row);
    assert MessagesStored(messages, aggs[row.conversationId]);
    assert MessageStored(messages, aggs[row.conversationId].messages[row.sequence - 1]);
  }

  lemma {:induction false} SameTurnRows(a: TurnMap, b: TurnMap, aggs: Aggregates)
    requires TurnTable(a, aggs) && TurnTable(b, aggs)
    ensures forall id :: id in a ==> id in b && b[id] == a[id]
  {
    forall id | id in a
      ensures id in b && b[id] == a[id]
    {
      TurnRowOf(a, aggs, id);
      assert TurnsStored(b, aggs[a[id].conversationId]);
      assert TurnStored(b, aggs[a[id].conversationId].turns[a[id].sequence - 1]);
    }
  }

  lemma {:induction false} SameMessageRows(a: MessageMap, b: MessageMap, aggs: Aggregates)
    requires MessageTable(a, aggs) && MessageTable(b, aggs)
    ensures forall id :: id in a ==> id in b && b[id] == a[id]
  {
    forall id | id in a
      ensures id in b && b[id] == a[id]
    {
      MessageRowOf(a, aggs, id);
      assert MessagesStored(b, aggs[a[id].conversationId]);
      assert MessageStored(b, aggs[a[id].conversationId].messages[a[id].sequence - 1]);
    }
  }

  /** The aggregates determine every row of the tables. */
  lemma {:induction false} RepresentsUnique(a: Tables, b: Tables, aggs: Aggregates)
    requires Represents(a, aggs) && Represents(b, aggs)
    ensures a == b
  {
    SameTurnRows(a.turns, b.turns, aggs);
    SameTurnRows(b.turns, a.turns, aggs);
    assert a.turns == b.turns;
    SameMessageRows(a.messages, b.messages, aggs);
    SameMessageRows(b.messages, a.messages, aggs);
    assert a.messages == b.messages;
    assert a.conversations == b.conversations;
  }

  lemma {:induction false} RepresentsKeyed(db: Tables, aggs: Aggregates)
    requires Represents(db, aggs)
    ensures Keyed(db)
  {
    forall id | id in db.turns
      ensures db.turns[id].id == id
    {
      TurnRowOf(db.turns, aggs, id);
    }
    forall id | id in db.messages
      ensures db.messages[id].id == id
    {
      MessageRowOf(db.messages, aggs, id);
    }
  }

  // ---------------------------------------------------------------------------------------------------------
  // Loading.

  lemma {:induction false} TurnRowsDistinct(turns: seq<Turn>)
    requires DistinctTurnIds(turns)
    ensures Distinct(TurnRowId, TurnRows(turns))
  {
    forall i, j | 0 <= i < j < |turns|
      ensures TurnRowId(TurnRows(turns)[i]) != TurnRowId(TurnRows(turns)[j])
    {
      assert turns[i].id != turns[j].id;
    }
  }

  lemma {:induction false} MessageRowsDistinct(messages: seq<Message>)
    requires DistinctMessageIds(messages)
    ensures Distinct(MessageRowId, MessageRows(messages))
  {
    forall i, j | 0 <= i < j < |messages|
      ensures MessageRowId(MessageRows(messages)[i]) != MessageRowId(MessageRows(messages)[j])
    {
      assert messages[i].id != messages[j].id;
    }
  }

  lemma {:induction false} TurnSelected(db: Tables, aggs: Aggregates, cid: Id, rows: seq<TurnRow>, row: TurnRow)
    requires TurnTable(db.turns, aggs) && cid in aggs && SelectsTurns(db, cid, rows)
    requires TurnsNumbered(aggs[cid].turns, cid)
    ensures row in rows <==> row in TurnRows(aggs[cid].turns)
  {
    var stored := TurnRows(aggs[cid].turns);
    if row in rows {
      TurnRowOf(db.turns, aggs, row.id);
      assert stored[row.sequence - 1] == row;
    }
    if row in stored {
      var i :| 0 <= i < |stored| && stored[i] == row;
      assert TurnsStored(db.turns, aggs[cid]);
      assert TurnStored(db.turns, aggs[cid].turns[i]);
    }
  }

  lemma {:induction false} MessageSelected(db: Tables, aggs: Aggregates, cid: Id, rows: seq<MessageRow>,
                                           row: MessageRow)
    requires MessageTable(db.messages, aggs) && cid in aggs && SelectsMessages(db, cid, rows)
    requires MessagesNumbered(aggs[cid].messages, cid)
    ensures row in rows <==> row in MessageRows(aggs[cid].messages)
  {
    var stored := MessageRows(aggs[cid].messages);
    if row in rows {
      MessageRowOf(db.messages, aggs, row.id);
      assert stored[row.sequence - 1] == row;
    }
    if row in stored {
      var j :| 0 <= j < |stored| && stored[j] == row;
      assert MessagesStored(db.messages, aggs[cid]);
      assert MessageStored(db.messages, aggs[cid].messages[j]);
    }
  }

  /** Whatever order the database returns them in, the rows scanned are the rows of the aggregate. */
  lemma {:induction false} ScanIsOrder(db: Tables, aggs: Aggregates, cid: Id, scan: Scan)
    requires Represents(db, aggs) && cid in aggs && Scans(db, cid, scan)
    requires TurnsNumbered(aggs[cid].turns, cid) && DistinctTurnIds(aggs[cid].turns)
    requires MessagesNumbered(aggs[cid].messages, cid) && DistinctMessageIds(aggs[cid].messages)
    ensures multiset(scan.turns) == multiset(TurnRows(aggs[cid].turns))
    ensures multiset(scan.messages) == multiset(MessageRows(aggs[cid].messages))
  {
    TurnRowsDistinct(aggs[cid].turns);
    MessageRowsDistinct(aggs[cid].messages);
    forall row: TurnRow
      ensures row in scan.turns <==> row in TurnRows(aggs[cid].turns)
    {
      TurnSelected(db, aggs, cid, scan.turns, row);
    }
    forall row: MessageRow
      ensures row in scan.messages <==> row in MessageRows(aggs[cid].messages)
    {
      MessageSelected(db, aggs, cid, scan.messages, row);
    }
    DistinctSameMembers(TurnRowId, scan.turns, TurnRows(aggs[cid].turns));
    DistinctSameMembers(MessageRowId, scan.messages, MessageRows(aggs[cid].messages));
  }

  lemma {:induction false} NormOfNormal(c: Conversation)
    requires Normal(c)
    ensures Norm(c) == c
  {
    assert NormTurns(c.turns) == c.turns;
  }

  /** Loading a stored aggregate gives that aggregate, or an error exactly when it is not loadable. */
  lemma {:induction false} LoadRepresented(db: Tables, aggs: Aggregates, cid: Id, scan: Scan)
    requires Represents(db, aggs) && cid in aggs && Scans(db, cid, scan)
    requires AggregateOk(aggs, cid)
    ensures cid in db.conversations
    ensures Loaded(db, cid, scan) == if Loadable(aggs[cid]) then Ok(aggs[cid]) else Err(InvalidValue)
  {
    ScanIsOrder(db, aggs, cid, scan);
    StoreThenLoad(aggs[cid], scan.turns, scan.messages);
    NormOfNormal(aggs[cid]);
  }

  // ---------------------------------------------------------------------------------------------------------
  // Partial writes are full writes.

  /** The columns save leaves alone never change. */
  lemma {:induction false} SaveRootIsFull(db: Tables, c: Conversation, c': Conversation)
    requires c.id in db.conversations && db.conversations[c.id] == ConversationToRow(c)
    requires c'.id == c.id && c'.createdAt == c.createdAt
    ensures SaveConversation(db, c') == Some(PutConversation(ConversationToRow(c')))
  {
  }

  lemma {:induction false} SaveTurnIsFull(db: Tables, t: Turn, t': Turn)
    requires TurnStored(db.turns, t) && Closes(t, t')
    ensures SaveTurn(db, t') == Some(PutTurn(TurnToRow(t')))
  {
  }

  function PutTurnIn(turns: TurnMap, t: Option<Turn>): TurnMap {
    if t == None then turns else turns[t.value.id := TurnToRow(t.value)]
  }

  function PutMessageIn(messages: MessageMap, m: Option<Message>): MessageMap {
    if m == None then messages else messages[m.value.id := MessageToRow(m.value)]
  }

  /** One root, at most one turn and at most one message written in full. */
  function Put(db: Tables, c: Conversation, t: Option<Turn>, m: Option<Message>): Tables {
    Tables(db.conversations[c.id := ConversationToRow(c)], PutTurnIn(db.turns, t), PutMessageIn(db.messages, m))
  }

  /** From c to c' at most the turn t is new or changed. */
  predicate TurnsFollow(turns: TurnMap, c: Conversation, c': Conversation, t: Option<Turn>) {
    && |c.turns| <= |c'.turns|
    && (forall i :: 0 <= i < |c.turns| ==> c'.turns[i].id == c.turns[i].id)
    && (forall i :: 0 <= i < |c'.turns| ==> (i < |c.turns| && c'.turns[i] == c.turns[i]) || t == Some(c'.turns[i]))
    && (t.Some? ==>
          var k := t.value.sequence - 1;
          0 <= k < |c'.turns| && c'.turns[k] == t.value && (k >= |c.turns| ==> t.value.id !in turns))
  }

  predicate MessagesFollow(messages: MessageMap, c: Conversation, c': Conversation, m: Option<Message>) {
    c'.messages == c.messages + m.ToSeq() && (m.Some? ==> m.value.id !in messages)
  }

  lemma {:induction false} PutTurnSame(turns: TurnMap, c: Conversation, c': Conversation, t: Option<Turn>)
    requires TurnsStored(turns, c) && TurnsFollow(turns, c, c', t) && DistinctTurnIds(c'.turns)
    ensures TurnsStored(PutTurnIn(turns, t), c')
  {
    forall i | 0 <= i < |c'.turns|
      ensures TurnStored(PutTurnIn(turns, t), c'.turns[i])
    {
      if t != Some(c'.turns[i]) {
        assert TurnStored(turns, c.turns[i]);
        if t.Some? {
          var k := t.value.sequence - 1;
          assert k != i && c'.turns[k].id != c'.turns[i].id;
        }
      }
    }
  }

  lemma {:induction false} PutTurnOther(turns: TurnMap, c: Conversation, c': Conversation, t: Option<Turn>,
                                        o: Conversation)
    requires TurnsStored(turns, c) && TurnsFollow(turns, c, c', t) && TurnsStored(turns, o)
    requires TurnsNumbered(c.turns, c.id) && TurnsNumbered(o.turns, o.id) && o.id != c.id
    ensures TurnsStored(PutTurnIn(turns, t), o)
  {
    forall i | 0 <= i < |o.turns|
      ensures TurnStored(PutTurnIn(turns, t), o.turns[i])
    {
      assert TurnStored(turns, o.turns[i]);
      if t.Some? && t.value.sequence - 1 < |c.turns| {
        assert TurnStored(turns, c.turns[t.value.sequence - 1]);
      }
    }
  }

  lemma {:induction false} PutTurnBelongs(turns: TurnMap, aggs: Aggregates, c': Conversation, t: Option<Turn>)
    requires TurnTable(turns, aggs) && c'.id in aggs && TurnsFollow(turns, aggs[c'.id], c', t)
    requires TurnsNumbered(c'.turns, c'.id)
    ensures forall id :: id in PutTurnIn(turns, t) ==> TurnBelongs(aggs[c'.id := c'], id, PutTurnIn(turns, t)[id])
  {
    forall id | id in PutTurnIn(turns, t)
      ensures TurnBelongs(aggs[c'.id := c'], id, PutTurnIn(turns, t)[id])
    {
      if t.Some? && id == t.value.id {
        assert c'.turns[t.value.sequence - 1] == t.value;
      } else {
        assert TurnBelongs(aggs, id, turns[id]);
      }
    }
  }

  lemma {:induction false} PutTurnTable(turns: TurnMap, aggs: Aggregates, c': Conversation, t: Option<Turn>)
    requires Numbered(aggs) && TurnTable(turns, aggs) && c'.id in aggs && TurnsFollow(turns, aggs[c'.id], c', t)
    requires TurnsNumbered(c'.turns, c'.id) && DistinctTurnIds(c'.turns)
    ensures TurnTable(PutTurnIn(turns, t), aggs[c'.id := c'])
  {
    assert TurnsStored(turns, aggs[c'.id]);
    PutTurnSame(turns, aggs[c'.id], c', t);
    forall cid | cid in aggs && cid != c'.id
      ensures TurnsStored(PutTurnIn(turns, t), aggs[cid])
    {
      assert TurnsStored(turns, aggs[cid]);
      PutTurnOther(turns, aggs[c'.id], c', t, aggs[cid]);
    }
    PutTurnBelongs(turns, aggs, c', t);
  }

  lemma {:induction false} PutMessageTable(messages: MessageMap, aggs: Aggregates, c': Conversation, m: Option<Message>)
    requires MessageTable(messages, aggs) && c'.id in aggs && MessagesFollow(messages, aggs[c'.id], c', m)
    requires MessagesNumbered(c'.messages, c'.id)
    ensures MessageTable(PutMessageIn(messages, m), aggs[c'.id := c'])
  {
    var c := aggs[c'.id];
    forall cid | cid in aggs
      ensures MessagesStored(PutMessageIn(messages, m), aggs[cid])
    {
      assert MessagesStored(messages, aggs[cid]);
      forall j | 0 <= j < |aggs[cid].messages|
        ensures MessageStored(PutMessageIn(messages, m), aggs[cid].messages[j])
      {
        assert MessageStored(messages, aggs[cid].messages[j]);
      }
    }
    forall id | id in PutMessageIn(messages, m)
      ensures MessageBelongs(aggs[c'.id := c'], id, PutMessageIn(messages, m)[id])
    {
      if m.Some? && id == m.value.id {
        assert c'.messages[|c.messages|] == m.value;
      } else {
        assert MessageBelongs(aggs, id, messages[id]);
      }
    }
    assert MessagesStored(PutMessageIn(messages, m), c);
    assert MessagesStored(PutMessageIn(messages, m), c') by {
      forall j | 0 <= j < |c'.messages|
        ensures MessageStored(PutMessageIn(messages, m), c'.messages[j])
      {
        if j < |c.messages| {
          assert MessageStored(PutMessageIn(messages, m), c.messages[j]);
        }
      }
    }
  }

  /** Writing the root, the turn and the message that are new or changed keeps the tables the full serialisation. */
  lemma {:induction false} PutRepresents(db: Tables, aggs: Aggregates, c': Conversation, t: Option<Turn>,
                                         m: Option<Message>)
    requires Numbered(aggs) && Represents(db, aggs) && c'.id in aggs
    requires TurnsNumbered(c'.turns, c'.id) && DistinctTurnIds(c'.turns) && MessagesNumbered(c'.messages, c'.id)
    requires TurnsFollow(db.turns, aggs[c'.id], c', t) && MessagesFollow(db.messages, aggs[c'.id], c', m)
    ensures Represents(Put(db, c', t, m), aggs[c'.id := c'])
  {
    PutTurnTable(db.turns, aggs, c', t);
    PutMessageTable(db.messages, aggs, c', m);
  }

  lemma {:induction false} NormTurnTable(turns: TurnMap, aggs: Aggregates, c: Conversation)
    requires c.id in aggs && TurnTable(turns, aggs[c.id := c])
    ensures TurnTable(turns, aggs[c.id := Norm(c)])
  {
    var plain := aggs[c.id := c];
    var norm := aggs[c.id := Norm(c)];
    forall cid | cid in norm
      ensures TurnsStored(turns, norm[cid])
    {
      assert TurnsStored(turns, plain[cid]);
      if cid == c.id {
        forall i | 0 <= i < |c.turns|
          ensures TurnStored(turns, Norm(c).turns[i])
        {
          assert TurnStored(turns, c.turns[i]);
        }
      }
    }
    forall id | id in turns
      ensures TurnBelongs(norm, id, turns[id])
    {
      assert TurnBelongs(plain, id, turns[id]);
    }
  }

  lemma {:induction false} NormMessageTable(messages: MessageMap, aggs: Aggregates, c: Conversation)
    requires c.id in aggs && MessageTable(messages, aggs[c.id := c])
    ensures MessageTable(messages, aggs[c.id := Norm(c)])
  {
    var plain := aggs[c.id := c];
    var norm := aggs[c.id := Norm(c)];
    forall cid | cid in norm
      ensures MessagesStored(messages, norm[cid])
    {
      assert MessagesStored(messages, plain[cid]);
    }
    forall id | id in messages
      ensures MessageBelongs(norm, id, messages[id])
    {
      assert MessageBelongs(plain, id, messages[id]);
    }
  }

  /** An aggregate and its normal form have the same rows. */
  lemma {:induction false} RepresentsNorm(db: Tables, aggs: Aggregates, c: Conversation)
    requires c.id in aggs && Represents(db, aggs[c.id := c])
    ensures Represents(db, aggs[c.id := Norm(c)])
  {
    NormTurnTable(db.turns, aggs, c);
    NormMessageTable(db.messages, aggs, c);
    assert aggs[c.id := c].Keys == aggs[c.id := Norm(c)].Keys;
  }

  lemma {:induction false} CountNorm(turns: seq<Turn>)
    ensures CountCompleted(NormTurns(turns)) == CountCompleted(turns)
  {
    if turns != [] {
      CountNorm(turns[..|turns| - 1]);
      assert NormTurns(turns)[..|turns| - 1] == NormTurns(turns[..|turns| - 1]);
    }
  }

  lemma {:induction false} NormTurnsOk(turns: seq<Turn>, id: Id)
    requires TurnsOk(turns) && TurnsNumbered(turns, id) && DistinctTurnIds(turns) && DistinctKeys(turns)
    requires AllTimesMatch(turns)
    ensures var ts := NormTurns(turns);
            TurnsOk(ts) && TurnsNumbered(ts, id) && DistinctTurnIds(ts) && DistinctKeys(ts) && AllTimesMatch(ts)
  {
    forall i | 0 <= i < |turns|
      ensures TurnOk(NormTurns(turns)[i])
    {
      NormTurnOk(turns[i]);
    }
  }

  lemma {:induction false} NormOwned(turns: seq<Turn>, messages: seq<Message>)
    requires AllHeld(turns, messages) && AllOwned(turns, messages)
    ensures AllHeld(NormTurns(turns), messages) && AllOwned(NormTurns(turns), messages)
  {
    forall j | 0 <= j < |messages|
      ensures HasOwner(NormTurns(turns), messages[j])
    {
      assert HasOwner(turns, messages[j]);
      var i :| 0 <= i < |turns| && OwnsMessage(turns[i], messages[j]);
      assert OwnsMessage(NormTurns(turns)[i], messages[j]);
    }
  }

  lemma {:induction false} NormKeepsInv(c: Conversation)
    requires Inv(c)
    ensures Inv(Norm(c)) && Normal(Norm(c))
  {
    CountNorm(c.turns);
    NormTurnsOk(c.turns, c.id);
    NormOwned(c.turns, c.messages);
    assert NothingAfter(Norm(c).turns, c.messages, c.updatedAt);
  }

  // ---------------------------------------------------------------------------------------------------------
  // No primary key and no unique constraint is ever violated.

  lemma {:induction false} TurnAdmitted(db: Tables, aggs: Aggregates, t: Turn)
    requires TurnTable(db.turns, aggs) && t.conversationId in aggs && t.id !in db.turns
    requires var turns := aggs[t.conversationId].turns; t.sequence == |turns| + 1 && !KeyTaken(turns, t.key)
    ensures AdmitsTurn(db, TurnToRow(t))
  {
    forall id | id in db.turns && db.turns[id].conversationId == t.conversationId
      ensures db.turns[id].sequence != t.sequence && (t.key.Some? ==> db.turns[id].key != t.key)
    {
      TurnRowOf(db.turns, aggs, id);
    }
  }

  /** The part of AggregatesOk that ties messages to turns. */
  predicate OwnersOk(aggs: Aggregates) {
    forall cid :: cid in aggs ==> TurnsOk(aggs[cid].turns) && AllOwned(aggs[cid].turns, aggs[cid].messages)
  }

  lemma {:induction false} OkIsOwned(aggs: Aggregates)
    requires AggregatesOk(aggs)
    ensures OwnersOk(aggs)
  {
    forall cid | cid in aggs
      ensures TurnsOk(aggs[cid].turns) && AllOwned(aggs[cid].turns, aggs[cid].messages)
    {
      assert AggregateOk(aggs, cid);
    }
  }

  lemma {:induction false} OwnerOf(c: Conversation, j: nat) returns (k: nat)
    requires TurnsOk(c.turns) && AllOwned(c.turns, c.messages) && j < |c.messages|
    ensures k < |c.turns| && OwnsMessage(c.turns[k], c.messages[j]) && c.turns[k].id == c.messages[j].turnId
  {
    assert HasOwner(c.turns, c.messages[j]);
    k :| 0 <= k < |c.turns| && OwnsMessage(c.turns[k], c.messages[j]);
    assert TurnOk(c.turns[k]);
  }

  /** The turn a stored message belongs to is stored, and belongs to the same conversation. */
  lemma {:induction false} OwnerStored(db: Tables, aggs: Aggregates, id: Id) returns (k: nat)
    requires TurnTable(db.turns, aggs) && MessageTable(db.messages, aggs) && id in db.messages
    requires OwnersOk(aggs)
    ensures var row := db.messages[id];
            MessageBelongs(aggs, id, row) &&
            var c := aggs[row.conversationId];
            k < |c.turns| && c.turns[k].id == row.turnId && OwnsMessage(c.turns[k], c.messages[row.sequence - 1]) &&
            TurnStored(db.turns, c.turns[k])
  {
    MessageRowOf(db.messages, aggs, id);
    var row := db.messages[id];
    var c := aggs[row.conversationId];
    k := OwnerOf(c, row.sequence - 1);
    assert TurnsStored(db.turns, c);
  }

  /** The turn is in the conversation and has no answer yet. */
  predicate Unanswered(c: Conversation, i: nat, turnId: Id) {
    i < |c.turns| && c.turns[i].id == turnId && c.turns[i].assistant == None
  }

  /** Two turns with the same id, both stored: they are one. */
  lemma {:induction false} OneTurnPerId(db: Tables, aggs: Aggregates, a: Id, i: nat, b: Id, k: nat)
    requires Numbered(aggs) && TurnTable(db.turns, aggs) && a in aggs && b in aggs
    requires i < |aggs[a].turns| && k < |aggs[b].turns| && aggs[a].turns[i].id == aggs[b].turns[k].id
    ensures a == b && i == k
  {
    assert TurnsStored(db.turns, aggs[a]) && TurnsStored(db.turns, aggs[b]);
    assert TurnStored(db.turns, aggs[a].turns[i]) && TurnStored(db.turns, aggs[b].turns[k]);
  }

  /** The first message of a new turn, or the answer of an unanswered one. */
  predicate MessageIsNew(db: Tables, aggs: Aggregates, m: Message, turn: Option<nat>) {
    && m.conversationId in aggs && m.id !in db.messages && m.sequence == |aggs[m.conversationId].messages| + 1
    && if turn == None then m.turnId !in db.turns
       else m.role == Assistant && Unanswered(aggs[m.conversationId], turn.value, m.turnId)
  }

  lemma {:induction false} MessageAdmitted(db: Tables, aggs: Aggregates, m: Message, turn: Option<nat>)
    requires OwnersOk(aggs) && Numbered(aggs) && Represents(db, aggs) && MessageIsNew(db, aggs, m, turn)
    ensures AdmitsMessage(db, MessageToRow(m))
  {
    forall id | id in db.messages
      ensures db.messages[id].conversationId == m.conversationId ==> db.messages[id].sequence != m.sequence
      ensures db.messages[id].turnId == m.turnId ==> db.messages[id].role != RoleName(m.role)
    {
      MessageDiffers(db, aggs, m, turn, id);
    }
  }

  lemma {:induction false} MessageDiffers(db: Tables, aggs: Aggregates, m: Message, turn: Option<nat>, id: Id)
    requires OwnersOk(aggs) && Numbered(aggs) && Represents(db, aggs) && MessageIsNew(db, aggs, m, turn)
    requires id in db.messages
    ensures db.messages[id].conversationId == m.conversationId ==> db.messages[id].sequence != m.sequence
    ensures db.messages[id].turnId == m.turnId ==> db.messages[id].role != RoleName(m.role)
  {
    MessageRowOf(db.messages, aggs, id);
    var row := db.messages[id];
    var k := OwnerStored(db, aggs, id);
    if row.turnId == m.turnId {
      OneTurnPerId(db, aggs, m.conversationId, turn.value, row.conversationId, k);
      assert TurnOk(aggs[row.conversationId].turns[k]);
    }
  }
}
