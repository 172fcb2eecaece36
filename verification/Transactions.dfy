/** The transactions of application/conversations/services.py: what each reads, which domain operation it applies and
    which rows it writes, first as functions on the tables, then as the methods that run them in a unit of work. */
module Transactions {
  import opened Prelude
  import opened Aggregate
  import opened Mappers
  import opened Store
  import opened UnitOfWork
  import opened LoaderSoundness
  import opened Permutations
  import Entities

  datatype TxError = NotFound | Domain(error: Error) | Integrity | Lookup

  /** The rows a conversation was loaded from, in the order the database returned them. */
  datatype Scan = Scan(turns: seq<TurnRow>, messages: seq<MessageRow>)

  predicate Scans(db: Tables, conversationId: Id, scan: Scan) {
    SelectsTurns(db, conversationId, scan.turns) && SelectsMessages(db, conversationId, scan.messages)
  }

  /** Conversation loaded by get_for_update. */
  function Loaded(db: Tables, conversationId: Id, scan: Scan): Result<Conversation, Error>
    requires conversationId in db.conversations
  {
    ConversationFromRows(db.conversations[conversationId], scan.turns, scan.messages)
  }

  // ---------------------------------------------------------------------------------------------------------
  // Row writes after a domain operation: all of them, or none and an error.

  function WriteStarted(db: Tables, c: Conversation, t: Turn): Result<Tables, TxError> {
    match SaveConversation(db, c)
    case None => Err(Lookup)
    case Some(w1) =>
      match AddTurn(ApplyWrite(db, w1), t)
      case None => Err(Integrity)
      case Some(w2) =>
        match AddMessage(ApplyWrite(ApplyWrite(db, w1), w2), t.user)
        case None => Err(Integrity)
        case Some(w3) => Ok(ApplyWrite(ApplyWrite(ApplyWrite(db, w1), w2), w3))
  }

  function WriteClosed(db: Tables, c: Conversation, t: Turn): Result<Tables, TxError> {
    match SaveConversation(db, c)
    case None => Err(Lookup)
    case Some(w1) =>
      match SaveTurn(ApplyWrite(db, w1), t)
      case None => Err(Lookup)
      case Some(w2) =>
        if t.assistant == None then Ok(ApplyWrite(ApplyWrite(db, w1), w2))
        else
          match AddMessage(ApplyWrite(ApplyWrite(db, w1), w2), t.assistant.value)
          case None => Err(Integrity)
          case Some(w3) => Ok(ApplyWrite(ApplyWrite(ApplyWrite(db, w1), w2), w3))
  }

  function WriteRoot(db: Tables, c: Conversation): Result<Tables, TxError> {
    match SaveConversation(db, c)
    case None => Err(Lookup)
    case Some(w) => Ok(ApplyWrite(db, w))
  }

  // ---------------------------------------------------------------------------------------------------------
  // The transactions.

  /** Result of the domain operation, with the domain error wrapped. */
  function Lift<T>(r: Result<T, Error>): Result<T, TxError> {
    match r case Ok(v) => Ok(v) case Err(e) => Err(Domain(e))
  }

  function CreateTx(db: Tables, id: Id, title: Option<string>, at: Time): (Tables, Result<(), TxError>) {
    match Lift(NewConversation(id, title, at))
    case Err(e) => (db, Err(e))
    case Ok(c) =>
      match AddConversation(db, c)
      case None => (db, Err(Integrity))
      case Some(w) => (ApplyWrite(db, w), Ok(()))
  }

  function StartTx(db: Tables, loaded: Result<Conversation, Error>, turnId: Id, messageId: Id, content: string,
                   requestId: Option<string>, key: Option<string>, at: Time)
    : (Tables, Result<Turn, TxError>)
  {
    if loaded.Err? then (db, Err(Domain(loaded.error)))
    else
      match Lift(StartTurn(loaded.value, turnId, messageId, content, requestId, key, at))
      case Err(e) => (db, Err(e))
      case Ok(c) =>
        var t := c.turns[|loaded.value.turns|];
        match WriteStarted(db, c, t)
        case Err(e) => (db, Err(e))
        case Ok(db') => (db', Ok(t))
  }

  /** What complete_turn is told about the model's answer. */
  datatype Completion = Completion(
    content: string,
    provider: Option<string>,
    model: Option<string>,
    finish: Option<string>,
    usage: Option<Usage>,
    at: Time)

  function CompleteTx(db: Tables, loaded: Result<Conversation, Error>, turnId: Id, messageId: Id, a: Completion)
    : (Tables, Result<Turn, TxError>)
  {
    if loaded.Err? then (db, Err(Domain(loaded.error)))
    else
      match Lift(CompleteTurn(loaded.value, turnId, messageId, a.content, a.provider, a.model, a.finish, a.usage, a.at))
      case Err(e) => (db, Err(e))
      case Ok(c) =>
        var t := c.turns[FindTurn(loaded.value.turns, turnId).value];
        match WriteClosed(db, c, t)
        case Err(e) => (db, Err(e))
        case Ok(db') => (db', Ok(t))
  }

  /** _best_effort_fail and _best_effort_cancel: whatever goes wrong is swallowed and changes nothing. */
  function CloseQuietly(db: Tables, loaded: Result<Conversation, Error>, turnId: Id,
                        closed: Result<Conversation, Error>): Tables
  {
    if loaded.Err? || closed.Err? then db
    else
      var i := FindTurn(loaded.value.turns, turnId);
      if i == None || loaded.value.turns[i.value].status != Pending || i.value >= |closed.value.turns| then db
      else
        match WriteClosed(db, closed.value, closed.value.turns[i.value])
        case Err(_) => db
        case Ok(db') => db'
  }

  function FailTx(db: Tables, loaded: Result<Conversation, Error>, turnId: Id, errorCode: Option<string>,
                  provider: Option<string>, model: Option<string>, at: Time): Tables
  {
    if loaded.Err? then db
    else CloseQuietly(db, loaded, turnId, FailTurn(loaded.value, turnId, errorCode, provider, model, at))
  }

  function CancelTx(db: Tables, loaded: Result<Conversation, Error>, turnId: Id, at: Time): Tables {
    if loaded.Err? then db else CloseQuietly(db, loaded, turnId, CancelTurn(loaded.value, turnId, at))
  }

  function ArchiveTx(db: Tables, loaded: Result<Conversation, Error>, at: Time): (Tables, Result<(), TxError>) {
    if loaded.Err? then (db, Err(Domain(loaded.error)))
    else
      match Lift(Archive(loaded.value, at))
      case Err(e) => (db, Err(e))
      case Ok(c) =>
        match WriteRoot(db, c)
        case Err(e) => (db, Err(e))
        case Ok(db') => (db', Ok(()))
  }

  // ---------------------------------------------------------------------------------------------------------
  // Reading the tables.

  /** Rows are filed under their primary keys. */
  predicate Keyed(db: Tables) {
    (forall id :: id in db.turns ==> db.turns[id].id == id) &&
    (forall id :: id in db.messages ==> db.messages[id].id == id)
  }

  method ScanTurns(db: Tables, conversationId: Id) returns (rows: seq<TurnRow>)
    requires Keyed(db)
    ensures SelectsTurns(db, conversationId, rows)
  {
    rows := [];
    var todo := db.turns.Keys;
    while todo != {}
      invariant todo <= db.turns.Keys
      invariant Distinct(TurnRowId, rows)
      invariant forall i :: 0 <= i < |rows| ==>
                              rows[i].id in db.turns && rows[i].id !in todo && db.turns[rows[i].id] == rows[i] &&
                              rows[i].conversationId == conversationId
      invariant forall id :: id in db.turns && id !in todo && db.turns[id].conversationId == conversationId ==>
                               db.turns[id] in rows
      decreases todo
    {
      var id :| id in todo;
      if db.turns[id].conversationId == conversationId {
        rows := rows + [db.turns[id]];
      }
      todo := todo - {id};
    }
  }

  method ScanMessages(db: Tables, conversationId: Id) returns (rows: seq<MessageRow>)
    requires Keyed(db)
    ensures SelectsMessages(db, conversationId, rows)
  {
    rows := [];
    var todo := db.messages.Keys;
    while todo != {}
      invariant todo <= db.messages.Keys
      invariant Distinct(MessageRowId, rows)
      invariant forall i :: 0 <= i < |rows| ==>
                              rows[i].id in db.messages && rows[i].id !in todo && db.messages[rows[i].id] == rows[i] &&
                              rows[i].conversationId == conversationId
      invariant forall id :: id in db.messages && id !in todo && db.messages[id].conversationId == conversationId ==>
                               db.messages[id] in rows
      decreases todo
    {
      var id :| id in todo;
      if db.messages[id].conversationId == conversationId {
        rows := rows + [db.messages[id]];
      }
      todo := todo - {id};
    }
  }

  /** get_for_update: None when there is no such conversation. */
  method GetForUpdate(session: Session, conversationId: Id)
    returns (r: Option<Result<Entities.Conversation, Error>>, scan: Scan)
    requires Keyed(session.View())
    ensures conversationId !in session.View().conversations ==> r == None
    ensures conversationId in session.View().conversations ==>
              Scans(session.View(), conversationId, scan) && r.Some? &&
              var loaded := Loaded(session.View(), conversationId, scan);
              (loaded.Err? ==> r.value == Err(loaded.error)) &&
              (loaded.Ok? ==> r.value.Ok? && r.value.value.Valid() && r.value.value.Value() == loaded.value)
    ensures r.Some? && r.value.Ok? ==> fresh(r.value.value) && fresh(r.value.value.turns)
  {
    var db := session.View();
    scan := Scan([], []);
    if conversationId !in db.conversations {
      return None, scan;
    }
    var turns := ScanTurns(db, conversationId);
    var messages := ScanMessages(db, conversationId);
    scan := Scan(turns, messages);
    var loaded := LoadConversation(db.conversations[conversationId], turns, messages);
    if loaded.Err? {
      r := Some(Err(loaded.error));
    } else {
      var conversation := new Entities.Conversation(loaded.value);
      r := Some(Ok(conversation));
    }
  }
}
