/** The three tables as maps from primary key to row, the queries of repositories/conversations.py on them, and the
    row writes of its add and save methods. */
module Store {
  import opened Prelude
  import opened Aggregate
  import opened Mappers
  import opened Permutations
  import opened LoaderSoundness

  datatype Tables = Tables(
    conversations: map<Id, ConversationRow>,
    turns: map<Id, TurnRow>,
    messages: map<Id, MessageRow>)

  const EMPTY := Tables(map[], map[], map[])

  /** A row written by the session and not yet committed. */
  datatype Write =
    | PutConversation(conversation: ConversationRow)
    | PutTurn(turn: TurnRow)
    | PutMessage(message: MessageRow)

  function ApplyWrite(db: Tables, w: Write): Tables {
    match w
    case PutConversation(row) => db.(conversations := db.conversations[row.id := row])
    case PutTurn(row) => db.(turns := db.turns[row.id := row])
    case PutMessage(row) => db.(messages := db.messages[row.id := row])
  }

  function ApplyAll(db: Tables, writes: seq<Write>): Tables {
    if writes == [] then db else ApplyWrite(ApplyAll(db, writes[..|writes| - 1]), writes[|writes| - 1])
  }

  lemma {:induction false} ApplyAllSnoc(db: Tables, writes: seq<Write>, w: Write)
    ensures ApplyAll(db, writes + [w]) == ApplyWrite(ApplyAll(db, writes), w)
  {
    assert (writes + [w])[..|writes|] == writes;
  }

  // ---------------------------------------------------------------------------------------------------------
  // Writes. None stands for the error the source or the database raises.

  /** Primary keys and the table's unique constraints let the row in. */
  predicate AdmitsConversation(db: Tables, row: ConversationRow) {
    row.id !in db.conversations
  }

  predicate AdmitsTurn(db: Tables, row: TurnRow) {
    row.id !in db.turns &&
    forall id :: id in db.turns && db.turns[id].conversationId == row.conversationId ==>
                   db.turns[id].sequence != row.sequence && (row.key.Some? ==> db.turns[id].key != row.key)
  }

  predicate AdmitsMessage(db: Tables, row: MessageRow) {
    row.id !in db.messages &&
    forall id :: id in db.messages ==>
                   (db.messages[id].conversationId == row.conversationId ==>
                      db.messages[id].sequence != row.sequence) &&
                   (db.messages[id].turnId == row.turnId ==> db.messages[id].role != row.role)
  }

  function AddConversation(db: Tables, c: Conversation): Option<Write> {
    var row := ConversationToRow(c);
    if AdmitsConversation(db, row) then Some(PutConversation(row)) else None
  }

  function AddTurn(db: Tables, t: Turn): Option<Write> {
    var row := TurnToRow(t);
    if AdmitsTurn(db, row) then Some(PutTurn(row)) else None
  }

  function AddMessage(db: Tables, m: Message): Option<Write> {
    var row := MessageToRow(m);
    if AdmitsMessage(db, row) then Some(PutMessage(row)) else None
  }

  /** save assigns these columns of the stored row and leaves the others. */
  function SaveConversation(db: Tables, c: Conversation): Option<Write> {
    if c.id !in db.conversations then None
    else
      Some(PutConversation(db.conversations[c.id].(title := c.title, status := ConversationStatusName(c.status),
                                                   nextSequence := c.nextMessage, updatedAt := c.updatedAt,
                                                   archivedAt := c.archivedAt)))
  }

  function SaveTurn(db: Tables, t: Turn): Option<Write> {
    if t.id !in db.turns then None
    else
      var mapped := TurnToRow(t);
      Some(PutTurn(db.turns[t.id].(requestId := mapped.requestId, key := mapped.key, status := mapped.status,
                                   provider := mapped.provider, model := mapped.model, finish := mapped.finish,
                                   promptTokens := mapped.promptTokens, completionTokens := mapped.completionTokens,
                                   totalTokens := mapped.totalTokens, errorCode := mapped.errorCode,
                                   updatedAt := mapped.updatedAt, completedAt := mapped.completedAt)))
  }

  // ---------------------------------------------------------------------------------------------------------
  // Queries. A SELECT returns each row that matches once; what the order of the rows is, is up to the database
  // until ORDER BY sorts it.

  predicate SelectsTurns(db: Tables, conversationId: Id, rows: seq<TurnRow>) {
    && Distinct(TurnRowId, rows)
    && (forall i :: 0 <= i < |rows| ==>
                      rows[i].id in db.turns && db.turns[rows[i].id] == rows[i] &&
                      rows[i].conversationId == conversationId)
    && (forall id :: id in db.turns && db.turns[id].conversationId == conversationId ==> db.turns[id] in rows)
  }

  predicate SelectsMessages(db: Tables, conversationId: Id, rows: seq<MessageRow>) {
    && Distinct(MessageRowId, rows)
    && (forall i :: 0 <= i < |rows| ==>
                      rows[i].id in db.messages && db.messages[rows[i].id] == rows[i] &&
                      rows[i].conversationId == conversationId)
    && (forall id :: id in db.messages && db.messages[id].conversationId == conversationId ==> db.messages[id] in rows)
  }

  /** The join of list_recent_completed_for_context. */
  predicate OfCompletedTurn(db: Tables, row: MessageRow) {
    row.turnId in db.turns && db.turns[row.turnId].conversationId == row.conversationId &&
    db.turns[row.turnId].status == TurnStatusName(Completed)
  }

  predicate SelectsCompleted(db: Tables, conversationId: Id, rows: seq<MessageRow>) {
    && Distinct(MessageRowId, rows)
    && (forall i :: 0 <= i < |rows| ==>
                      rows[i].id in db.messages && db.messages[rows[i].id] == rows[i] &&
                      rows[i].conversationId == conversationId && OfCompletedTurn(db, rows[i]))
    && (forall id :: (id in db.messages && db.messages[id].conversationId == conversationId &&
                      OfCompletedTurn(db, db.messages[id])) ==> db.messages[id] in rows)
  }

  function RowSequence(r: MessageRow): int {
    r.sequence
  }

  /** ORDER BY sequence DESC LIMIT limit, reversed: the last `limit` rows in sequence order. */
  function Recent(rows: seq<MessageRow>, limit: nat): seq<MessageRow> {
    LastK(SortBy(RowSequence, rows), limit)
  }
}
