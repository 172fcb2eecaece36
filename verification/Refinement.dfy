/** Each transaction on the tables does exactly what the domain operation does to the aggregate kept in memory. */
module Refinement {
  import opened Prelude
  import opened Aggregate
  import opened AggregateInvariant
  import opened Mappers
  import opened RoundTrip
  import opened Store
  import opened Operations
  import opened Transactions
  import opened Representation

  /** _best_effort_fail and _best_effort_cancel never raise. */
  function Raised(cmd: Command, error: TxError): Result<Option<Turn>, TxError> {
    if cmd.Fail? || cmd.Cancel? then Ok(None) else Err(error)
  }

  /** The transaction of a command, on the tables: new tables and what the caller gets. */
  function Transact(db: Tables, cid: Id, scan: Scan, cmd: Command): (Tables, Result<Option<Turn>, TxError>) {
    if cid !in db.conversations then (db, Raised(cmd, NotFound))
    else
      var loaded := Loaded(db, cid, scan);
      match cmd
      case ArchiveAt(at) =>
        var (db', r) := ArchiveTx(db, loaded, at);
        (db', if r.Ok? then Ok(None) else Err(r.error))
      case Start(turnId, messageId, content, requestId, key, at) =>
        var (db', r) := StartTx(db, loaded, turnId, messageId, content, requestId, key, at);
        (db', if r.Ok? then Ok(Some(r.value)) else Err(r.error))
      case Complete(turnId, messageId, content, provider, model, finish, usage, at) =>
        var (db', r) :=
          CompleteTx(db, loaded, turnId, messageId, Completion(content, provider, model, finish, usage, at));
        (db', if r.Ok? then Ok(Some(r.value)) else Err(r.error))
      case Fail(turnId, errorCode, provider, model, at) =>
        (FailTx(db, loaded, turnId, errorCode, provider, model, at), Ok(None))
      case Cancel(turnId, at) => (CancelTx(db, loaded, turnId, at), Ok(None))
  }

  /** The turn a command hands back. */
  function Reply(c: Conversation, c': Conversation, cmd: Command): Option<Turn> {
    match cmd
    case Start(_, _, _, _, _, _) => if c'.turns == [] then None else Some(c'.turns[|c'.turns| - 1])
    case Complete(turnId, _, _, _, _, _, _, _) =>
      var i := FindTurn(c.turns, turnId);
      if i == None || i.value >= |c'.turns| then None else Some(c'.turns[i.value])
    case _ => None
  }

  /** The same command on aggregates that are never stored. */
  function InMemory(aggs: Aggregates, cid: Id, cmd: Command): (Aggregates, Result<Option<Turn>, TxError>) {
    if cid !in aggs then (aggs, Raised(cmd, NotFound))
    else if !Loadable(aggs[cid]) then (aggs, Raised(cmd, Domain(InvalidValue)))
    else
      match Apply(aggs[cid], cmd)
      case Err(e) => (aggs, Raised(cmd, Domain(e)))
      case Ok(c) => (aggs[cid := Norm(c)], Ok(Reply(aggs[cid], c, cmd)))
  }

  lemma {:induction false} ReplyAt(c: Conversation, c': Conversation, cmd: Command, i: nat)
    requires DistinctTurnIds(c.turns) && cmd.Complete? && i < |c.turns| == |c'.turns| && c.turns[i].id == cmd.turnId
    ensures Reply(c, c', cmd) == Some(c'.turns[i])
  {
    FindTurnAt(c.turns, i);
  }

  /** A completion hands back the turn, completed, with the answer as its assistant message. */
  lemma {:induction false} CompletionReplies(c: Conversation, cmd: Command, i: nat)
    requires Inv(c) && cmd.Complete? && i < |c.turns| && c.turns[i].id == cmd.turnId && Apply(c, cmd).Ok?
    ensures var r := Reply(c, Apply(c, cmd).value, cmd);
            r.Some? && r.value.id == cmd.turnId && r.value.conversationId == c.id && r.value.status == Completed &&
            r.value.completedAt == Some(cmd.at) && r.value.user == c.turns[i].user &&
            r.value.assistant == Some(Message(cmd.messageId, c.id, cmd.turnId, Assistant, cmd.content, |c.messages| + 1,
                                              cmd.at))
  {
    CompletedTurnIs(c, cmd, i);
    ReplyAt(c, Apply(c, cmd).value, cmd, i);
  }

  /** Drawn identifiers are in no table (uuid4). */
  predicate FreshIds(db: Tables, cmd: Command) {
    (cmd.Start? ==> cmd.turnId !in db.turns) && (cmd.Start? || cmd.Complete? ==> cmd.messageId !in db.messages)
  }

  lemma {:induction false} FreshIsNew(db: Tables, aggs: Aggregates, cid: Id, cmd: Command)
    requires Represents(db, aggs) && cid in aggs && FreshIds(db, cmd)
    ensures DrawsNewIds(aggs[cid], cmd)
  {
    assert TurnsStored(db.turns, aggs[cid]) && MessagesStored(db.messages, aggs[cid]);
    forall i | 0 <= i < |aggs[cid].turns| && cmd.Start?
      ensures aggs[cid].turns[i].id != cmd.turnId
    {
      assert TurnStored(db.turns, aggs[cid].turns[i]);
    }
    forall j | 0 <= j < |aggs[cid].messages| && (cmd.Start? || cmd.Complete?)
      ensures aggs[cid].messages[j].id != cmd.messageId
    {
      assert MessageStored(db.messages, aggs[cid].messages[j]);
    }
  }

  // ---------------------------------------------------------------------------------------------------------
  // Row writes.

  lemma {:induction false} WriteStartedIsPut(db: Tables, c: Conversation, c': Conversation, t: Turn)
    requires c.id in db.conversations && db.conversations[c.id] == ConversationToRow(c)
    requires c'.id == c.id && c'.createdAt == c.createdAt
    requires AdmitsTurn(db, TurnToRow(t)) && AdmitsMessage(db, MessageToRow(t.user))
    ensures WriteStarted(db, c', t) == Ok(Put(db, c', Some(t), Some(t.user)))
  {
    SaveRootIsFull(db, c, c');
    var db1 := ApplyWrite(db, PutConversation(ConversationToRow(c')));
    assert AdmitsTurn(db1, TurnToRow(t));
    var db2 := ApplyWrite(db1, PutTurn(TurnToRow(t)));
    assert AdmitsMessage(db2, MessageToRow(t.user));
  }

  lemma {:induction false} WriteClosedIsPut(db: Tables, c: Conversation, c': Conversation, t: Turn, t': Turn)
    requires c.id in db.conversations && db.conversations[c.id] == ConversationToRow(c)
    requires c'.id == c.id && c'.createdAt == c.createdAt
    requires TurnStored(db.turns, t) && Closes(t, t')
    requires t'.assistant.Some? ==> AdmitsMessage(db, MessageToRow(t'.assistant.value))
    ensures WriteClosed(db, c', t') == Ok(Put(db, c', Some(t'), t'.assistant))
  {
    SaveRootIsFull(db, c, c');
    var db1 := ApplyWrite(db, PutConversation(ConversationToRow(c')));
    SaveTurnIsFull(db1, t, t');
    var db2 := ApplyWrite(db1, PutTurn(TurnToRow(t')));
    if t'.assistant.Some? {
      assert AdmitsMessage(db2, MessageToRow(t'.assistant.value));
    }
  }

  lemma {:induction false} RootRow(db: Tables, aggs: Aggregates, cid: Id)
    requires RootTable(db.conversations, aggs) && cid in aggs && aggs[cid].id == cid
    ensures cid in db.conversations && db.conversations[cid] == ConversationToRow(aggs[cid])
  {
  }

  /** Everything known about a stored aggregate and its successor. */
  predicate Successor(db: Tables, aggs: Aggregates, c': Conversation) {
    && Numbered(aggs) && OwnersOk(aggs) && Represents(db, aggs) && c'.id in aggs
    && TurnsNumbered(c'.turns, c'.id) && DistinctTurnIds(c'.turns) && MessagesNumbered(c'.messages, c'.id)
    && c'.createdAt == aggs[c'.id].createdAt
  }

  /** A started turn's rows go in, and the tables represent the new aggregate. */
  lemma {:induction false} StartedIsStored(db: Tables, aggs: Aggregates, c': Conversation, t: Turn)
    requires Successor(db, aggs, c')
    requires var c := aggs[c'.id];
             c'.turns == c.turns + [t] && c'.messages == c.messages + [t.user] && !KeyTaken(c.turns, t.key)
    requires t.id !in db.turns && t.user.id !in db.messages && t.user.turnId == t.id
    ensures WriteStarted(db, c', t) == Ok(Put(db, c', Some(t), Some(t.user)))
    ensures Represents(Put(db, c', Some(t), Some(t.user)), aggs[c'.id := c'])
  {
    var c := aggs[c'.id];
    assert c'.turns[|c.turns|] == t && c'.messages[|c.messages|] == t.user;
    RootRow(db, aggs, c.id);
    TurnAdmitted(db, aggs, t);
    MessageAdmitted(db, aggs, t.user, None);
    WriteStartedIsPut(db, c, c', t);
    PutRepresents(db, aggs, c', Some(t), Some(t.user));
  }

  lemma {:induction false} ClosedAdmits(db: Tables, aggs: Aggregates, c': Conversation, i: nat, t': Turn)
    requires Successor(db, aggs, c') && i < |aggs[c'.id].turns|
    requires var c := aggs[c'.id];
             Closes(c.turns[i], t') && c.turns[i].assistant == None && c'.messages == c.messages + t'.assistant.ToSeq()
    requires t'.assistant.Some? ==>
               t'.assistant.value.id !in db.messages && t'.assistant.value.role == Assistant &&
               t'.assistant.value.turnId == t'.id
    ensures t'.assistant.Some? ==> AdmitsMessage(db, MessageToRow(t'.assistant.value))
  {
    if t'.assistant.Some? {
      var c := aggs[c'.id];
      assert c'.messages[|c.messages|] == t'.assistant.value;
      MessageAdmitted(db, aggs, t'.assistant.value, Some(i));
    }
  }

  lemma {:induction false} ClosedIsWritten(db: Tables, aggs: Aggregates, c': Conversation, i: nat, t': Turn)
    requires Successor(db, aggs, c') && i < |aggs[c'.id].turns|
    requires var c := aggs[c'.id];
             Closes(c.turns[i], t') && c.turns[i].assistant == None && c'.messages == c.messages + t'.assistant.ToSeq()
    requires t'.assistant.Some? ==>
               t'.assistant.value.id !in db.messages && t'.assistant.value.role == Assistant &&
               t'.assistant.value.turnId == t'.id
    ensures WriteClosed(db, c', t') == Ok(Put(db, c', Some(t'), t'.assistant))
  {
    var c := aggs[c'.id];
    ClosedAdmits(db, aggs, c', i, t');
    RootRow(db, aggs, c.id);
    assert TurnsStored(db.turns, c);
    assert TurnStored(db.turns, c.turns[i]);
    WriteClosedIsPut(db, c, c', c.turns[i], t');
  }

  lemma {:induction false} ClosedFollows(turns: TurnMap, c: Conversation, c': Conversation, i: nat, t': Turn)
    requires i < |c.turns| && Closes(c.turns[i], t') && c'.turns == c.turns[i := t'] && TurnsNumbered(c'.turns, c'.id)
    ensures TurnsFollow(turns, c, c', Some(t'))
  {
    assert c'.turns[i] == t' && t'.sequence == i + 1;
  }

  /** A closed turn's rows go in, and the tables represent the new aggregate. */
  lemma {:induction false} ClosedIsStored(db: Tables, aggs: Aggregates, c': Conversation, i: nat, t': Turn)
    requires Successor(db, aggs, c') && i < |aggs[c'.id].turns|
    requires var c := aggs[c'.id];
             Closes(c.turns[i], t') && c.turns[i].assistant == None &&
             c'.turns == c.turns[i := t'] && c'.messages == c.messages + t'.assistant.ToSeq()
    requires t'.assistant.Some? ==>
               t'.assistant.value.id !in db.messages && t'.assistant.value.role == Assistant &&
               t'.assistant.value.turnId == t'.id
    ensures WriteClosed(db, c', t') == Ok(Put(db, c', Some(t'), t'.assistant))
    ensures Represents(Put(db, c', Some(t'), t'.assistant), aggs[c'.id := c'])
  {
    ClosedIsWritten(db, aggs, c', i, t');
    ClosedFollows(db.turns, aggs[c'.id], c', i, t');
    PutRepresents(db, aggs, c', Some(t'), t'.assistant);
  }

  lemma {:induction false} RootIsStored(db: Tables, aggs: Aggregates, c': Conversation)
    requires Successor(db, aggs, c')
    requires c'.turns == aggs[c'.id].turns && c'.messages == aggs[c'.id].messages
    ensures WriteRoot(db, c') == Ok(Put(db, c', None, None))
    ensures Represents(Put(db, c', None, None), aggs[c'.id := c'])
  {
    RootRow(db, aggs, c'.id);
    SaveRootIsFull(db, aggs[c'.id], c');
    PutRepresents(db, aggs, c', None, None);
  }

  // ---------------------------------------------------------------------------------------------------------
  // What an operation does to the lists.

  lemma {:induction false} StartShape(c: Conversation, cmd: Command)
    requires cmd.Start? && Apply(c, cmd).Ok?
    ensures var c' := Apply(c, cmd).value;
            |c'.turns| == |c.turns| + 1 &&
            var t := c'.turns[|c.turns|];
            c'.turns == c.turns + [t] && c'.messages == c.messages + [t.user] && !KeyTaken(c.turns, t.key) &&
            t.id == cmd.turnId && t.user.id == cmd.messageId && t.user.turnId == t.id
  {
  }

  lemma {:induction false} CompleteShape(c: Conversation, cmd: Command)
    requires cmd.Complete? && Apply(c, cmd).Ok?
    ensures FindTurn(c.turns, cmd.turnId).Some?
    ensures var i := FindTurn(c.turns, cmd.turnId).value;
            var c' := Apply(c, cmd).value;
            |c'.turns| == |c.turns| &&
            var t' := c'.turns[i];
            Closes(c.turns[i], t') && c.turns[i].assistant == None && c'.turns == c.turns[i := t'] &&
            c'.messages == c.messages + t'.assistant.ToSeq() &&
            t'.assistant.Some? && t'.assistant.value.id == cmd.messageId && t'.assistant.value.role == Assistant &&
            t'.assistant.value.turnId == t'.id
  {
  }

  lemma {:induction false} CloseShape(c: Conversation, cmd: Command)
    requires (cmd.Fail? || cmd.Cancel?) && Apply(c, cmd).Ok? && TurnsOk(c.turns)
    ensures FindTurn(c.turns, cmd.turnId).Some?
    ensures var i := FindTurn(c.turns, cmd.turnId).value;
            var c' := Apply(c, cmd).value;
            |c'.turns| == |c.turns| &&
            var t' := c'.turns[i];
            Closes(c.turns[i], t') && c.turns[i].assistant == None && t'.assistant == None &&
            c'.turns == c.turns[i := t'] && c'.messages == c.messages + t'.assistant.ToSeq()
  {
    var i := FindTurn(c.turns, cmd.turnId).value;
    assert TurnOk(c.turns[i]);
  }

  // ---------------------------------------------------------------------------------------------------------
  // The refinement.

  /** The tables and the aggregates agree, and the call has what the code needs to run. */
  predicate Agree(db: Tables, aggs: Aggregates, cid: Id, scan: Scan, cmd: Command) {
    AggregatesOk(aggs) && Represents(db, aggs) && (cid in aggs ==> Scans(db, cid, scan)) && FreshIds(db, cmd)
  }

  lemma {:induction false} SuccessorOf(db: Tables, aggs: Aggregates, cid: Id, scan: Scan, cmd: Command)
    requires Agree(db, aggs, cid, scan, cmd) && cid in aggs && Apply(aggs[cid], cmd).Ok?
    ensures var c' := Apply(aggs[cid], cmd).value;
            c'.id == cid && Successor(db, aggs, c') && Inv(c') && Evolves(aggs[cid], c')
  {
    OkIsNumbered(aggs);
    OkIsOwned(aggs);
    assert AggregateOk(aggs, cid);
    FreshIsNew(db, aggs, cid, cmd);
    ApplyKeepsInv(aggs[cid], cmd);
  }

  /** The operation succeeds on the loaded aggregate. */
  predicate Succeeds(db: Tables, aggs: Aggregates, cid: Id, scan: Scan, cmd: Command) {
    && cid in aggs && cid in db.conversations && Loadable(aggs[cid]) && Loaded(db, cid, scan) == Ok(aggs[cid])
    && FreshIds(db, cmd) && TurnsOk(aggs[cid].turns) && Apply(aggs[cid], cmd).Ok?
    && Apply(aggs[cid], cmd).value.id == cid && Successor(db, aggs, Apply(aggs[cid], cmd).value)
  }

  /** Its rows are written, and represent the result. */
  predicate Alike(db: Tables, aggs: Aggregates, cid: Id, scan: Scan, cmd: Command)
    requires Succeeds(db, aggs, cid, scan, cmd)
  {
    Transact(db, cid, scan, cmd).1 == InMemory(aggs, cid, cmd).1 &&
    Represents(Transact(db, cid, scan, cmd).0, aggs[cid := Apply(aggs[cid], cmd).value])
  }

  lemma {:induction false} StartAlike(db: Tables, aggs: Aggregates, cid: Id, scan: Scan, cmd: Command)
    requires Succeeds(db, aggs, cid, scan, cmd) && cmd.Start?
    ensures Alike(db, aggs, cid, scan, cmd)
  {
    var c := aggs[cid];
    var c' := Apply(c, cmd).value;
    StartShape(c, cmd);
    StartedIsStored(db, aggs, c', c'.turns[|c.turns|]);
  }

  lemma {:induction false} CompleteAlike(db: Tables, aggs: Aggregates, cid: Id, scan: Scan, cmd: Command)
    requires Succeeds(db, aggs, cid, scan, cmd) && cmd.Complete?
    ensures Alike(db, aggs, cid, scan, cmd)
  {
    var c := aggs[cid];
    var c' := Apply(c, cmd).value;
    CompleteShape(c, cmd);
    var i := FindTurn(c.turns, cmd.turnId).value;
    ClosedIsStored(db, aggs, c', i, c'.turns[i]);
  }

  /** The checks of the best-effort transactions never stop an operation that succeeds. */
  lemma {:induction false} QuietWrites(db: Tables, c: Conversation, c': Conversation, turnId: Id, t': Turn, db': Tables)
    requires var i := FindTurn(c.turns, turnId);
             i.Some? && c.turns[i.value].status == Pending && i.value < |c'.turns| && c'.turns[i.value] == t'
    requires WriteClosed(db, c', t') == Ok(db')
    ensures CloseQuietly(db, Ok(c), turnId, Ok(c')) == db'
  {
  }

  lemma {:induction false} CloseAlike(db: Tables, aggs: Aggregates, cid: Id, scan: Scan, cmd: Command)
    returns (db': Tables)
    requires Succeeds(db, aggs, cid, scan, cmd) && (cmd.Fail? || cmd.Cancel?)
    ensures CloseQuietly(db, Ok(aggs[cid]), cmd.turnId, Ok(Apply(aggs[cid], cmd).value)) == db'
    ensures Represents(db', aggs[cid := Apply(aggs[cid], cmd).value])
  {
    var c := aggs[cid];
    var c' := Apply(c, cmd).value;
    CloseShape(c, cmd);
    var i := FindTurn(c.turns, cmd.turnId).value;
    ClosedIsStored(db, aggs, c', i, c'.turns[i]);
    db' := Put(db, c', Some(c'.turns[i]), c'.turns[i].assistant);
    QuietWrites(db, c, c', cmd.turnId, c'.turns[i], db');
  }

  lemma {:induction false} FailAlike(db: Tables, aggs: Aggregates, cid: Id, scan: Scan, cmd: Command)
    requires Succeeds(db, aggs, cid, scan, cmd) && cmd.Fail?
    ensures Alike(db, aggs, cid, scan, cmd)
  {
    var _ := CloseAlike(db, aggs, cid, scan, cmd);
  }

  lemma {:induction false} CancelAlike(db: Tables, aggs: Aggregates, cid: Id, scan: Scan, cmd: Command)
    requires Succeeds(db, aggs, cid, scan, cmd) && cmd.Cancel?
    ensures Alike(db, aggs, cid, scan, cmd)
  {
    var _ := CloseAlike(db, aggs, cid, scan, cmd);
  }

  lemma {:induction false} ArchiveAlike(db: Tables, aggs: Aggregates, cid: Id, scan: Scan, cmd: Command)
    requires Succeeds(db, aggs, cid, scan, cmd) && cmd.ArchiveAt?
    ensures Alike(db, aggs, cid, scan, cmd)
  {
    RootIsStored(db, aggs, Apply(aggs[cid], cmd).value);
  }

  lemma {:induction false} SucceedsAlike(db: Tables, aggs: Aggregates, cid: Id, scan: Scan, cmd: Command)
    requires Agree(db, aggs, cid, scan, cmd) && cid in aggs && Loadable(aggs[cid]) && Apply(aggs[cid], cmd).Ok?
    ensures Succeeds(db, aggs, cid, scan, cmd) && Alike(db, aggs, cid, scan, cmd)
  {
    assert AggregateOk(aggs, cid);
    LoadRepresented(db, aggs, cid, scan);
    SuccessorOf(db, aggs, cid, scan, cmd);
    assert Succeeds(db, aggs, cid, scan, cmd);
    match cmd
    case ArchiveAt(_) => ArchiveAlike(db, aggs, cid, scan, cmd);
    case Start(_, _, _, _, _, _) => StartAlike(db, aggs, cid, scan, cmd);
    case Complete(_, _, _, _, _, _, _, _) => CompleteAlike(db, aggs, cid, scan, cmd);
    case Fail(_, _, _, _, _) => FailAlike(db, aggs, cid, scan, cmd);
    case Cancel(_, _) => CancelAlike(db, aggs, cid, scan, cmd);
  }

  /** A load or an operation that fails: nothing is written. */
  lemma {:induction false} NotLoadedAlike(db: Tables, aggs: Aggregates, cid: Id, scan: Scan, cmd: Command)
    requires cid in aggs && cid in db.conversations
    requires Loaded(db, cid, scan) == if Loadable(aggs[cid]) then Ok(aggs[cid]) else Err(InvalidValue)
    requires Loadable(aggs[cid]) ==> Apply(aggs[cid], cmd).Err?
    ensures Transact(db, cid, scan, cmd) == (db, InMemory(aggs, cid, cmd).1)
  {
  }

  lemma {:induction false} FailsAlike(db: Tables, aggs: Aggregates, cid: Id, scan: Scan, cmd: Command)
    requires Agree(db, aggs, cid, scan, cmd)
    requires cid in aggs && Loadable(aggs[cid]) ==> Apply(aggs[cid], cmd).Err?
    ensures Transact(db, cid, scan, cmd) == (db, InMemory(aggs, cid, cmd).1)
    ensures InMemory(aggs, cid, cmd).0 == aggs
  {
    if cid in aggs {
      assert AggregateOk(aggs, cid);
      LoadRepresented(db, aggs, cid, scan);
      NotLoadedAlike(db, aggs, cid, scan, cmd);
    }
  }

  lemma {:induction false} OkAdded(aggs: Aggregates, c: Conversation)
    requires AggregatesOk(aggs) && Inv(c) && Normal(c)
    ensures AggregatesOk(aggs[c.id := c])
  {
    var aggs' := aggs[c.id := c];
    forall cid | cid in aggs'
      ensures AggregateOk(aggs', cid)
    {
      if cid != c.id {
        assert AggregateOk(aggs, cid);
      }
    }
  }

  lemma {:induction false} OkUpdate(aggs: Aggregates, c: Conversation)
    requires AggregatesOk(aggs) && Inv(c)
    ensures AggregatesOk(aggs[c.id := Norm(c)])
  {
    NormKeepsInv(c);
    OkAdded(aggs, Norm(c));
  }

  /** Main result: a transaction loads the aggregate from rows in any order, applies the domain operation, and writes
      the few rows it thinks changed; afterwards the tables are the full serialisation of the aggregate after the
      operation, and the caller gets what the operation returned or raised. */
  lemma {:induction false} TransactRefines(db: Tables, aggs: Aggregates, cid: Id, scan: Scan, cmd: Command)
    requires Agree(db, aggs, cid, scan, cmd)
    ensures Transact(db, cid, scan, cmd).1 == InMemory(aggs, cid, cmd).1
    ensures Represents(Transact(db, cid, scan, cmd).0, InMemory(aggs, cid, cmd).0)
    ensures AggregatesOk(InMemory(aggs, cid, cmd).0)
  {
    if cid in aggs && Loadable(aggs[cid]) && Apply(aggs[cid], cmd).Ok? {
      var c' := Apply(aggs[cid], cmd).value;
      SucceedsAlike(db, aggs, cid, scan, cmd);
      SuccessorOf(db, aggs, cid, scan, cmd);
      RepresentsNorm(Transact(db, cid, scan, cmd).0, aggs, c');
      OkUpdate(aggs, c');
    } else {
      FailsAlike(db, aggs, cid, scan, cmd);
    }
  }

  /** An empty conversation adds no turn and no message. */
  lemma {:induction false} EmptyAdded(db: Tables, aggs: Aggregates, c: Conversation)
    requires TurnTable(db.turns, aggs) && MessageTable(db.messages, aggs)
    requires c.id !in aggs && c.turns == [] && c.messages == []
    ensures TurnTable(db.turns, aggs[c.id := c]) && MessageTable(db.messages, aggs[c.id := c])
  {
    var aggs' := aggs[c.id := c];
    forall cid | cid in aggs'
      ensures TurnsStored(db.turns, aggs'[cid]) && MessagesStored(db.messages, aggs'[cid])
    {
      if cid != c.id {
        assert TurnsStored(db.turns, aggs[cid]) && MessagesStored(db.messages, aggs[cid]);
      }
    }
    forall id | id in db.turns
      ensures TurnBelongs(aggs', id, db.turns[id])
    {
      assert TurnBelongs(aggs, id, db.turns[id]);
    }
    forall id | id in db.messages
      ensures MessageBelongs(aggs', id, db.messages[id])
    {
      assert MessageBelongs(aggs, id, db.messages[id]);
    }
  }

  lemma {:induction false} NewIsOk(id: Id, title: Option<string>, at: Time)
    requires NewConversation(id, title, at).Ok?
    ensures var c := NewConversation(id, title, at).value;
            Inv(c) && Normal(c) && c.id == id && c.turns == [] && c.messages == []
  {
    OptionalFieldNormal(title, 200);
  }

  function CreateInMemory(aggs: Aggregates, id: Id, title: Option<string>, at: Time): Aggregates {
    var created := NewConversation(id, title, at);
    if created.Ok? && id !in aggs then aggs[id := created.value] else aggs
  }

  lemma {:induction false} CreatedIsStored(db: Tables, aggs: Aggregates, c: Conversation)
    requires Represents(db, aggs) && c.id !in aggs && c.turns == [] && c.messages == []
    ensures Represents(ApplyWrite(db, PutConversation(ConversationToRow(c))), aggs[c.id := c])
  {
    EmptyAdded(db, aggs, c);
  }

  /** Creation adds one row. */
  lemma {:induction false} CreateRefines(db: Tables, aggs: Aggregates, id: Id, title: Option<string>, at: Time)
    requires AggregatesOk(aggs) && Represents(db, aggs)
    ensures Represents(CreateTx(db, id, title, at).0, CreateInMemory(aggs, id, title, at))
    ensures AggregatesOk(CreateInMemory(aggs, id, title, at))
    ensures var (db', r) := CreateTx(db, id, title, at);
            if r.Ok?
            then id !in db.conversations &&
                 db'.conversations ==
                 db.conversations[id := ConversationRow(id, StripText(title), "active", 1, at, at, None)] &&
                 db'.turns == db.turns && db'.messages == db.messages
            else db' == db
  {
    var created := NewConversation(id, title, at);
    if created.Ok? && id !in aggs {
      NewIsOk(id, title, at);
      OkAdded(aggs, created.value);
      CreatedIsStored(db, aggs, created.value);
    }
    if created.Ok? {
      CreateOutcome(id, title, at);
    }
  }
}
