/** The transaction methods of ConversationChatService and ConversationCommandService, each run in its own unit of
    work and proved to be one of the functions of module Transactions: all rows are committed, or none. */
module Services {
  import opened Prelude
  import opened Aggregate
  import opened Store
  import opened UnitOfWork
  import opened Transactions
  import Entities

  class ConversationServices {
    const database: Database

    constructor (database: Database)
      ensures this.database == database
    {
      this.database := database;
    }

    method CreateConversation(id: Id, title: Option<string>, at: Time) returns (r: Result<(), TxError>)
      modifies database
      ensures (database.tables, r) == CreateTx(old(database.tables), id, title, at)
    {
      var created := NewConversation(id, title, at);
      if created.Err? {
        return Err(Domain(created.error));
      }
      var uow := new SqlAlchemyUnitOfWork(database);
      var _ := uow.Enter();
      var write := AddConversation(uow.session.View(), created.value);
      if write == None {
        uow.Exit(true);
        return Err(Integrity);
      }
      uow.session.Put(write.value);
      var _ := uow.Commit();
      uow.Exit(false);
      return Ok(());
    }

    /** Enter a unit of work and load the conversation for update. */
    method Open(conversationId: Id)
      returns (uow: SqlAlchemyUnitOfWork, r: Result<Entities.Conversation, TxError>, scan: Scan)
      requires Keyed(database.tables)
      ensures fresh(uow) && uow.Valid() && uow.database == database && !uow.finished
      ensures uow.session != null && fresh(uow.session) && uow.session.View() == database.tables
      ensures conversationId !in database.tables.conversations ==> r == Err(NotFound)
      ensures conversationId in database.tables.conversations ==>
                Scans(database.tables, conversationId, scan) &&
                var loaded := Loaded(database.tables, conversationId, scan);
                (loaded.Err? ==> r == Err(Domain(loaded.error))) &&
                (loaded.Ok? ==> r.Ok? && r.value.Valid() && r.value.Value() == loaded.value)
      ensures r.Ok? ==> fresh(r.value) && fresh(r.value.turns)
    {
      uow := new SqlAlchemyUnitOfWork(database);
      var _ := uow.Enter();
      var found;
      found, scan := GetForUpdate(uow.session, conversationId);
      r := if found == None then Err(NotFound)
           else if found.value.Err? then Err(Domain(found.value.error))
           else Ok(found.value.value);
    }

    /** Leave the unit of work, after a commit when the block succeeded. */
    method Close(uow: SqlAlchemyUnitOfWork, commit: bool)
      requires uow.Valid() && uow.database == database && uow.session != null && !uow.finished
      modifies uow, uow.session, database
      ensures database.tables == if commit then old(uow.session.View()) else old(database.tables)
    {
      if commit {
        var _ := uow.Commit();
      }
      uow.Exit(!commit);
    }

    method ArchiveConversation(conversationId: Id, at: Time) returns (r: Result<(), TxError>, scan: Scan)
      requires Keyed(database.tables)
      modifies database
      ensures conversationId !in old(database.tables).conversations ==>
                r == Err(NotFound) && database.tables == old(database.tables)
      ensures conversationId in old(database.tables).conversations ==>
                Scans(old(database.tables), conversationId, scan) &&
                (database.tables, r) ==
                ArchiveTx(old(database.tables), Loaded(old(database.tables), conversationId, scan), at)
    {
      var uow, found;
      uow, found, scan := Open(conversationId);
      if found.Err? {
        r := Err(found.error);
      } else {
        r := ApplyArchive(uow.session, found.value, at);
      }
      Close(uow, r.Ok?);
    }

    method ApplyArchive(session: Session, conversation: Entities.Conversation, at: Time) returns (r: Result<(), TxError>)
      requires conversation.Valid()
      modifies session, conversation
      ensures var (after, expected) := ArchiveTx(old(session.View()), Ok(old(conversation.Value())), at);
              r == expected && (r.Ok? ==> session.View() == after)
    {
      var archived := conversation.Archive(at);
      if archived.Err? {
        return Err(Domain(archived.error));
      }
      var write := SaveConversation(session.View(), conversation.Value());
      if write == None {
        return Err(Lookup);
      }
      session.Put(write.value);
      return Ok(());
    }

    /** Rows of a started turn, flushed one by one. */
    method FlushStarted(session: Session, c: Conversation, t: Turn) returns (r: Result<(), TxError>)
      modifies session
      ensures var w := WriteStarted(old(session.View()), c, t);
              if w.Ok? then r == Ok(()) && session.View() == w.value else r == Err(w.error)
    {
      var root := SaveConversation(session.View(), c);
      if root == None {
        return Err(Lookup);
      }
      session.Put(root.value);
      var turn := AddTurn(session.View(), t);
      if turn == None {
        return Err(Integrity);
      }
      session.Put(turn.value);
      var message := AddMessage(session.View(), t.user);
      if message == None {
        return Err(Integrity);
      }
      session.Put(message.value);
      return Ok(());
    }

    method FlushClosed(session: Session, c: Conversation, t: Turn) returns (r: Result<(), TxError>)
      modifies session
      ensures var w := WriteClosed(old(session.View()), c, t);
              if w.Ok? then r == Ok(()) && session.View() == w.value else r == Err(w.error)
    {
      var root := SaveConversation(session.View(), c);
      if root == None {
        return Err(Lookup);
      }
      session.Put(root.value);
      var turn := SaveTurn(session.View(), t);
      if turn == None {
        return Err(Lookup);
      }
      session.Put(turn.value);
      if t.assistant.Some? {
        var message := AddMessage(session.View(), t.assistant.value);
        if message == None {
          return Err(Integrity);
        }
        session.Put(message.value);
      }
      return Ok(());
    }

    /** start_turn on the loaded aggregate, and its rows flushed. */
    method ApplyStart(session: Session, conversation: Entities.Conversation, turnId: Id, messageId: Id,
                      content: string, requestId: Option<string>, key: Option<string>, at: Time)
      returns (r: Result<Turn, TxError>)
      requires conversation.Valid()
      modifies session, conversation
      ensures var (after, expected) := StartTx(old(session.View()), Ok(old(conversation.Value())), turnId, messageId,
                                               content, requestId, key, at);
              r == expected && (r.Ok? ==> session.View() == after)
    {
      ghost var n := |conversation.turns|;
      var turn := conversation.StartTurn(turnId, messageId, content, requestId, key, at);
      if turn.Err? {
        return Err(Domain(turn.error));
      }
      assert conversation.Value().turns[n] == turn.value.Value();
      var flushed := FlushStarted(session, conversation.Value(), turn.value.Value());
      return if flushed.Err? then Err(flushed.error) else Ok(turn.value.Value());
    }

    method ApplyComplete(session: Session, conversation: Entities.Conversation, turnId: Id, messageId: Id,
                         a: Completion)
      returns (r: Result<Turn, TxError>)
      requires conversation.Valid()
      modifies session, conversation, conversation.turns
      ensures var (after, expected) :=
                CompleteTx(old(session.View()), Ok(old(conversation.Value())), turnId, messageId, a);
              r == expected && (r.Ok? ==> session.View() == after)
    {
      var turn := conversation.CompleteTurn(turnId, messageId, a.content, a.provider, a.model, a.finish, a.usage, a.at);
      if turn.Err? {
        return Err(Domain(turn.error));
      }
      var flushed := FlushClosed(session, conversation.Value(), turn.value.Value());
      return if flushed.Err? then Err(flushed.error) else Ok(turn.value.Value());
    }

    method StartPendingTurn(conversationId: Id, turnId: Id, messageId: Id, content: string,
                            requestId: Option<string>, key: Option<string>, at: Time)
      returns (r: Result<Turn, TxError>, scan: Scan)
      requires Keyed(database.tables)
      modifies database
      ensures conversationId !in old(database.tables).conversations ==>
                r == Err(NotFound) && database.tables == old(database.tables)
      ensures conversationId in old(database.tables).conversations ==>
                Scans(old(database.tables), conversationId, scan) &&
                (database.tables, r) ==
                StartTx(old(database.tables), Loaded(old(database.tables), conversationId, scan), turnId, messageId,
                        content, requestId, key, at)
    {
      var uow, found;
      uow, found, scan := Open(conversationId);
      if found.Err? {
        r := Err(found.error);
      } else {
        r := ApplyStart(uow.session, found.value, turnId, messageId, content, requestId, key, at);
      }
      Close(uow, r.Ok?);
    }

    method CompleteTurn(conversationId: Id, turnId: Id, messageId: Id, a: Completion)
      returns (r: Result<Turn, TxError>, scan: Scan)
      requires Keyed(database.tables)
      modifies database
      ensures conversationId !in old(database.tables).conversations ==>
                r == Err(NotFound) && database.tables == old(database.tables)
      ensures conversationId in old(database.tables).conversations ==>
                Scans(old(database.tables), conversationId, scan) &&
                (database.tables, r) ==
                CompleteTx(old(database.tables), Loaded(old(database.tables), conversationId, scan), turnId,
                           messageId, a)
    {
      var uow, found;
      uow, found, scan := Open(conversationId);
      if found.Err? {
        r := Err(found.error);
        Close(uow, false);
      } else {
        r := CompleteOpened(uow, found.value, turnId, messageId, a);
      }
    }

    /** The rest of the transaction once the conversation is loaded. */
    method CompleteOpened(uow: SqlAlchemyUnitOfWork, conversation: Entities.Conversation, turnId: Id, messageId: Id,
                          a: Completion)
      returns (r: Result<Turn, TxError>)
      requires uow.Valid() && uow.database == database && uow.session != null && !uow.finished
      requires uow.session.View() == database.tables && conversation.Valid()
      modifies uow, uow.session, database, conversation, conversation.turns
      ensures (database.tables, r) ==
              CompleteTx(old(database.tables), Ok(old(conversation.Value())), turnId, messageId, a)
    {
      r := ApplyComplete(uow.session, conversation, turnId, messageId, a);
      Close(uow, r.Ok?);
    }

    /** _best_effort_fail: no error gets out of it. */
    method BestEffortFail(conversationId: Id, turnId: Id, errorCode: Option<string>, provider: Option<string>,
                          model: Option<string>, at: Time)
      returns (scan: Scan)
      requires Keyed(database.tables)
      modifies database
      ensures conversationId !in old(database.tables).conversations ==> database.tables == old(database.tables)
      ensures conversationId in old(database.tables).conversations ==>
                Scans(old(database.tables), conversationId, scan) &&
                database.tables ==
                FailTx(old(database.tables), Loaded(old(database.tables), conversationId, scan), turnId, errorCode,
                       provider, model, at)
    {
      var uow, found;
      uow, found, scan := Open(conversationId);
      if found.Err? {
        uow.Exit(found.error != NotFound);
      } else {
        FailOpened(uow, found.value, turnId, errorCode, provider, model, at);
      }
    }

    method FailOpened(uow: SqlAlchemyUnitOfWork, conversation: Entities.Conversation, turnId: Id,
                      errorCode: Option<string>, provider: Option<string>, model: Option<string>, at: Time)
      requires uow.Valid() && uow.database == database && uow.session != null && !uow.finished
      requires uow.session.View() == database.tables && conversation.Valid()
      modifies uow, uow.session, database, conversation, conversation.turns
      ensures database.tables ==
              FailTx(old(database.tables), Ok(old(conversation.Value())), turnId, errorCode, provider, model, at)
    {
      var index := conversation.FindTurn(turnId);
      if index == None {
        uow.Exit(true);
      } else if conversation.turns[index.value].status != Pending {
        uow.Exit(false);
      } else {
        var ok := ApplyFail(uow.session, conversation, turnId, errorCode, provider, model, at);
        Close(uow, ok);
      }
    }

    /** Fail a turn that was found pending, and flush its rows. */
    method ApplyFail(session: Session, conversation: Entities.Conversation, turnId: Id,
                     errorCode: Option<string>, provider: Option<string>, model: Option<string>, at: Time)
      returns (ok: bool)
      requires conversation.Valid()
      requires var i := FindTurn(conversation.Value().turns, turnId);
               i.Some? && conversation.Value().turns[i.value].status == Pending
      modifies session, conversation, conversation.turns
      ensures var after :=
                FailTx(old(session.View()), Ok(old(conversation.Value())), turnId, errorCode, provider, model, at);
              after == if ok then session.View() else old(session.View())
    {
      var turn := conversation.FailTurn(turnId, errorCode, provider, model, at);
      if turn.Err? {
        return false;
      }
      var flushed := FlushClosed(session, conversation.Value(), turn.value.Value());
      return flushed.Ok?;
    }

    /** _best_effort_cancel: no error gets out of it. */
    method BestEffortCancel(conversationId: Id, turnId: Id, at: Time) returns (scan: Scan)
      requires Keyed(database.tables)
      modifies database
      ensures conversationId !in old(database.tables).conversations ==> database.tables == old(database.tables)
      ensures conversationId in old(database.tables).conversations ==>
                Scans(old(database.tables), conversationId, scan) &&
                database.tables ==
                CancelTx(old(database.tables), Loaded(old(database.tables), conversationId, scan), turnId, at)
    {
      var uow, found;
      uow, found, scan := Open(conversationId);
      if found.Err? {
        uow.Exit(found.error != NotFound);
      } else {
        CancelOpened(uow, found.value, turnId, at);
      }
    }

    method CancelOpened(uow: SqlAlchemyUnitOfWork, conversation: Entities.Conversation, turnId: Id,
                      at: Time)
      requires uow.Valid() && uow.database == database && uow.session != null && !uow.finished
      requires uow.session.View() == database.tables && conversation.Valid()
      modifies uow, uow.session, database, conversation, conversation.turns
      ensures database.tables == CancelTx(old(database.tables), Ok(old(conversation.Value())), turnId, at)
    {
      var index := conversation.FindTurn(turnId);
      if index == None {
        uow.Exit(true);
      } else if conversation.turns[index.value].status != Pending {
        uow.Exit(false);
      } else {
        var ok := ApplyCancel(uow.session, conversation, turnId, at);
        Close(uow, ok);
      }
    }

    /** Cancel a turn that was found pending, and flush its rows. */
    method ApplyCancel(session: Session, conversation: Entities.Conversation, turnId: Id,
                     at: Time)
      returns (ok: bool)
      requires conversation.Valid()
      requires var i := FindTurn(conversation.Value().turns, turnId);
               i.Some? && conversation.Value().turns[i.value].status == Pending
      modifies session, conversation, conversation.turns
      ensures var after := CancelTx(old(session.View()), Ok(old(conversation.Value())), turnId, at);
              after == if ok then session.View() else old(session.View())
    {
      var turn := conversation.CancelTurn(turnId, at);
      if turn.Err? {
        return false;
      }
      var flushed := FlushClosed(session, conversation.Value(), turn.value.Value());
      return flushed.Ok?;
    }
  }
}
