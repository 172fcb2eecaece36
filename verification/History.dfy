/** The history read of a chat call: list_recent_completed_for_context on tables that represent the aggregates. */
module History {
  import opened Prelude
  import opened Aggregate
  import opened AggregateInvariant
  import opened Mappers
  import opened Permutations
  import opened RoundTrip
  import opened LoaderSoundness
  import opened Store
  import opened Representation

  predicate IsCompletedMessage(turns: seq<Turn>, m: Message) {
    exists i :: 0 <= i < |turns| && turns[i].status == Completed && turns[i].id == m.turnId
  }

  function OfCompleted(turns: seq<Turn>): Message -> bool {
    (m: Message) => IsCompletedMessage(turns, m)
  }

  /** The messages of completed turns, in sequence order. */
  function CompletedMessages(c: Conversation): seq<Message> {
    Filter(OfCompleted(c.turns), c.messages)
  }

  /** They are the messages that belong to a turn that is completed. */
  lemma {:induction false} CompletedMessagesAre(c: Conversation, m: Message)
    requires Shape(c)
    ensures m in CompletedMessages(c) <==>
            m in c.messages &&
            exists i :: 0 <= i < |c.turns| && c.turns[i].status == Completed && OwnsMessage(c.turns[i], m)
  {
    FilterMember(OfCompleted(c.turns), c.messages, m);
    if m in CompletedMessages(c) {
      var j :| 0 <= j < |c.messages| && c.messages[j] == m;
      var i :| 0 <= i < |c.turns| && c.turns[i].status == Completed && c.turns[i].id == m.turnId;
      OwnedByTurn(c, i, j);
    }
    if i :| 0 <= i < |c.turns| && c.turns[i].status == Completed && OwnsMessage(c.turns[i], m) {
      assert TurnOk(c.turns[i]);
    }
  }

  lemma {:induction false} FilterSorted<T>(keep: T -> bool, key: T -> int, s: seq<T>)
    requires StrictlySorted(key, s)
    ensures StrictlySorted(key, Filter(keep, s))
  {
    if s != [] {
      var rest := Filter(keep, s[1..]);
      FilterSorted(keep, key, s[1..]);
      forall j | 0 <= j < |rest|
        ensures key(s[0]) < key(rest[j])
      {
        FilterMember(keep, s[1..], rest[j]);
        var i :| 0 <= i < |s[1..]| && s[1..][i] == rest[j];
        assert s[i + 1] == rest[j];
      }
    }
  }

  lemma {:induction false} CompletedSorted(c: Conversation)
    requires MessagesNumbered(c.messages, c.id)
    ensures StrictlySorted(MessageSequenceOf, CompletedMessages(c))
  {
    FilterSorted(OfCompleted(c.turns), MessageSequenceOf, c.messages);
  }

  lemma {:induction false} MessageRowsFilterDistinct(messages: seq<Message>, keep: Message -> bool, id: Id)
    requires MessagesNumbered(messages, id) && DistinctMessageIds(messages)
    ensures Distinct(MessageRowId, MessageRows(Filter(keep, messages)))
  {
    var kept := Filter(keep, messages);
    FilterSorted(keep, MessageSequenceOf, messages);
    forall i, j | 0 <= i < j < |kept|
      ensures MessageRowId(MessageRows(kept)[i]) != MessageRowId(MessageRows(kept)[j])
    {
      FilterMember(keep, messages, kept[i]);
      FilterMember(keep, messages, kept[j]);
      assert MessageSequenceOf(kept[i]) < MessageSequenceOf(kept[j]);
      var a :| 0 <= a < |messages| && messages[a] == kept[i];
      var b :| 0 <= b < |messages| && messages[b] == kept[j];
      assert a < b;
    }
  }

  /** The stored turn of a message, in the aggregate: completed or not is the same on both sides. */
  lemma {:induction false} CompletedAlike(db: Tables, aggs: Aggregates, cid: Id, m: Message)
    requires TurnTable(db.turns, aggs) && cid in aggs && TurnsNumbered(aggs[cid].turns, cid) && m.conversationId == cid
    ensures OfCompletedTurn(db, MessageToRow(m)) <==> IsCompletedMessage(aggs[cid].turns, m)
  {
    var turns := aggs[cid].turns;
    if OfCompletedTurn(db, MessageToRow(m)) {
      TurnRowOf(db.turns, aggs, m.turnId);
      var i := db.turns[m.turnId].sequence - 1;
      assert turns[i].status == Completed && turns[i].id == m.turnId;
    }
    if IsCompletedMessage(turns, m) {
      var i :| 0 <= i < |turns| && turns[i].status == Completed && turns[i].id == m.turnId;
      assert TurnsStored(db.turns, aggs[cid]);
      assert TurnStored(db.turns, turns[i]);
    }
  }

  lemma {:induction false} SelectedIsKept(db: Tables, aggs: Aggregates, cid: Id, row: MessageRow)
    requires TurnTable(db.turns, aggs) && MessageTable(db.messages, aggs) && cid in aggs
    requires TurnsNumbered(aggs[cid].turns, cid)
    requires row.id in db.messages && db.messages[row.id] == row && row.conversationId == cid
    requires OfCompletedTurn(db, row)
    ensures row in MessageRows(CompletedMessages(aggs[cid]))
  {
    var c := aggs[cid];
    var kept := CompletedMessages(c);
    MessageRowOf(db.messages, aggs, row.id);
    var m := c.messages[row.sequence - 1];
    CompletedAlike(db, aggs, cid, m);
    FilterMember(OfCompleted(c.turns), c.messages, m);
    var j :| 0 <= j < |kept| && kept[j] == m;
    assert MessageRows(kept)[j] == row;
  }

  lemma {:induction false} KeptIsStored(db: Tables, aggs: Aggregates, cid: Id, m: Message)
    requires TurnTable(db.turns, aggs) && MessageTable(db.messages, aggs) && cid in aggs
    requires TurnsNumbered(aggs[cid].turns, cid) && MessagesNumbered(aggs[cid].messages, cid)
    requires m in CompletedMessages(aggs[cid])
    ensures MessageStored(db.messages, m) && m.conversationId == cid && OfCompletedTurn(db, MessageToRow(m))
  {
    var c := aggs[cid];
    FilterMember(OfCompleted(c.turns), c.messages, m);
    assert MessagesStored(db.messages, c);
    var i :| 0 <= i < |c.messages| && c.messages[i] == m;
    assert MessageStored(db.messages, c.messages[i]);
    CompletedAlike(db, aggs, cid, m);
  }

  lemma {:induction false} RowIsSelected(db: Tables, aggs: Aggregates, cid: Id, rows: seq<MessageRow>, row: MessageRow)
    requires Represents(db, aggs) && cid in aggs && SelectsCompleted(db, cid, rows)
    requires TurnsNumbered(aggs[cid].turns, cid) && MessagesNumbered(aggs[cid].messages, cid)
    ensures row in rows <==> row in MessageRows(CompletedMessages(aggs[cid]))
  {
    var kept := CompletedMessages(aggs[cid]);
    if row in rows {
      SelectedIsKept(db, aggs, cid, row);
    }
    if row in MessageRows(kept) {
      var j :| 0 <= j < |kept| && MessageRows(kept)[j] == row;
      KeptIsStored(db, aggs, cid, kept[j]);
    }
  }

  lemma {:induction false} CompletedScanIsOrder(db: Tables, aggs: Aggregates, cid: Id, rows: seq<MessageRow>)
    requires Represents(db, aggs) && cid in aggs && SelectsCompleted(db, cid, rows)
    requires TurnsNumbered(aggs[cid].turns, cid)
    requires MessagesNumbered(aggs[cid].messages, cid) && DistinctMessageIds(aggs[cid].messages)
    ensures multiset(rows) == multiset(MessageRows(CompletedMessages(aggs[cid])))
  {
    MessageRowsFilterDistinct(aggs[cid].messages, OfCompleted(aggs[cid].turns), cid);
    forall row: MessageRow
      ensures row in rows <==> row in MessageRows(CompletedMessages(aggs[cid]))
    {
      RowIsSelected(db, aggs, cid, rows, row);
    }
    DistinctSameMembers(MessageRowId, rows, MessageRows(CompletedMessages(aggs[cid])));
  }

  lemma {:induction false} MessagesInOrderLoad(messages: seq<Message>)
    requires forall j :: 0 <= j < |messages| ==> ValidMessage(messages[j])
    ensures MessagesFromRows(MessageRows(messages)) == Ok(messages)
  {
    if messages != [] {
      MessagesInOrderLoad(messages[1..]);
      assert MessageRows(messages)[1..] == MessageRows(messages[1..]);
      MessageRowLoads(messages[0]);
      assert [messages[0]] + messages[1..] == messages;
    }
  }

  lemma {:induction false} RecentIsLast(rows: seq<MessageRow>, messages: seq<Message>, limit: nat)
    requires multiset(rows) == multiset(MessageRows(messages)) && StrictlySorted(MessageSequenceOf, messages)
    ensures Recent(rows, limit) == MessageRows(LastK(messages, limit))
  {
    forall i, j | 0 <= i < j < |messages|
      ensures RowSequence(MessageRows(messages)[i]) < RowSequence(MessageRows(messages)[j])
    {
      assert MessageSequenceOf(messages[i]) < MessageSequenceOf(messages[j]);
    }
    SortByRestores(RowSequence, rows, MessageRows(messages));
    assert LastK(MessageRows(messages), limit) == MessageRows(LastK(messages, limit));
  }

  lemma {:induction false} CompletedAreValid(c: Conversation, limit: nat)
    requires Shape(c)
    ensures forall j :: 0 <= j < |LastK(CompletedMessages(c), limit)| ==>
                          ValidMessage(LastK(CompletedMessages(c), limit)[j])
  {
    forall m | m in CompletedMessages(c)
      ensures ValidMessage(m)
    {
      FilterMember(OfCompleted(c.turns), c.messages, m);
      var i :| 0 <= i < |c.messages| && c.messages[i] == m;
      MessagesAreValid(c, i);
    }
    forall j | 0 <= j < |LastK(CompletedMessages(c), limit)|
      ensures ValidMessage(LastK(CompletedMessages(c), limit)[j])
    {
      assert LastK(CompletedMessages(c), limit)[j] in CompletedMessages(c);
    }
  }

  /** Main result: the history read returns the last `limit` messages of completed turns, in sequence order, whatever
      order the rows come in and whether or not the conversation itself would load. */
  lemma {:induction false} HistoryIsRecent(db: Tables, aggs: Aggregates, cid: Id, rows: seq<MessageRow>, limit: nat)
    requires AggregatesOk(aggs) && Represents(db, aggs) && cid in aggs && SelectsCompleted(db, cid, rows)
    ensures MessagesFromRows(Recent(rows, limit)) == Ok(LastK(CompletedMessages(aggs[cid]), limit))
  {
    var c := aggs[cid];
    assert AggregateOk(aggs, cid);
    CompletedScanIsOrder(db, aggs, cid, rows);
    CompletedSorted(c);
    RecentIsLast(rows, CompletedMessages(c), limit);
    CompletedAreValid(c, limit);
    MessagesInOrderLoad(LastK(CompletedMessages(c), limit));
  }

  // ---------------------------------------------------------------------------------------------------------

  lemma {:induction false} CompletedStays(c: Conversation, c': Conversation, m: Message)
    requires Evolves(c, c') && m in CompletedMessages(c)
    ensures m in CompletedMessages(c')
  {
    FilterMember(OfCompleted(c.turns), c.messages, m);
    FilterMember(OfCompleted(c'.turns), c'.messages, m);
    var i :| 0 <= i < |c.turns| && c.turns[i].status == Completed && c.turns[i].id == m.turnId;
    assert TurnEvolves(c.turns[i], c'.turns[i]);
    assert c'.turns[i] == c.turns[i];
    var j :| 0 <= j < |c.messages| && c.messages[j] == m;
    assert c'.messages[j] == m;
  }

  lemma {:induction false} LastKIsPart<T>(s: seq<T>, k: nat, x: T)
    requires x in LastK(s, k)
    ensures x in s
  {
  }
}
