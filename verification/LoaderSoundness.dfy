/** What conversation_to_domain guarantees about any row set it accepts, whoever wrote the rows. */
module LoaderSoundness {
  import opened Prelude
  import opened Text
  import opened Aggregate
  import opened AggregateInvariant
  import opened Mappers
  import opened Permutations
  import opened RoundTrip

  function TurnRowId(r: TurnRow): Id {
    r.id
  }

  function MessageRowId(r: MessageRow): Id {
    r.id
  }

  function TurnId(t: Turn): Id {
    t.id
  }

  function MessageId(m: Message): Id {
    m.id
  }

  /** The row a turn row becomes when it is loaded and stored again. */
  function StripRow(r: TurnRow): TurnRow {
    r.(requestId := StripText(r.requestId), key := StripText(r.key), provider := StripText(r.provider),
       model := StripText(r.model), finish := StripText(r.finish), errorCode := StripText(r.errorCode))
  }

  function StripRows(rows: seq<TurnRow>): (r: seq<TurnRow>)
    ensures |r| == |rows|
    ensures forall i :: 0 <= i < |rows| ==> r[i] == StripRow(rows[i])
  {
    seq(|rows|, i requires 0 <= i < |rows| => StripRow(rows[i]))
  }

  // ---------------------------------------------------------------------------------------------------------
  // Row by row.

  lemma {:induction false} MessagesLoaded(rows: seq<MessageRow>)
    requires MessagesFromRows(rows).Ok?
    ensures var ms := MessagesFromRows(rows).value;
            MessageRows(ms) == rows && forall i :: 0 <= i < |ms| ==> ValidMessage(ms[i])
  {
    if rows != [] {
      MessagesLoaded(rows[1..]);
      var m := MessageFromRow(rows[0]).value;
      assert MessageToRow(m) == rows[0];
      var ms := MessagesFromRows(rows).value;
      assert ms == [m] + MessagesFromRows(rows[1..]).value;
      assert MessageRows(ms) == [rows[0]] + rows[1..];
    }
  }

  lemma {:induction false} UsageColumns(row: TurnRow)
    requires UsageFromRow(row).Ok?
    ensures var u := UsageFromRow(row).value;
            row.promptTokens == (if u == None then None else Tokens(u.value.prompt)) &&
            row.completionTokens == (if u == None then None else Tokens(u.value.completion)) &&
            row.totalTokens == (if u == None then None else Tokens(u.value.total))
  {
  }

  lemma {:induction false} StatusColumn(name: string)
    requires ParseTurnStatus(name).Some?
    ensures TurnStatusName(ParseTurnStatus(name).value) == name
  {
  }

  /** The turn as the mapper hands it to rehydrate. */
  function PersistedTurn(row: TurnRow, user: Message, assistant: Option<Message>, status: TurnStatus,
                         usage: Option<Usage>): Turn
  {
    Turn(row.id, row.conversationId, row.sequence, user, assistant, row.requestId, row.key, status, row.provider,
         row.model, row.finish, usage, row.errorCode, row.createdAt, row.updatedAt, row.completedAt)
  }

  lemma {:induction false} PersistedRow(row: TurnRow, user: Message, assistant: Option<Message>)
    requires ParseTurnStatus(row.status).Some? && UsageFromRow(row).Ok?
    ensures TurnToRow(StripTurn(PersistedTurn(row, user, assistant, ParseTurnStatus(row.status).value,
                                              UsageFromRow(row).value))) == StripRow(row)
  {
    StatusColumn(row.status);
    UsageColumns(row);
  }

  lemma {:induction false} TurnLoaded(row: TurnRow, messages: seq<Message>)
    requires TurnFromRow(row, messages).Ok?
    requires forall i :: 0 <= i < |messages| ==> ValidMessage(messages[i])
    ensures var t := TurnFromRow(row, messages).value;
            TurnOk(t) && t.id == row.id && TurnToRow(t) == StripRow(row) &&
            t.user in messages && (t.assistant.Some? ==> t.assistant.value in messages)
  {
    var users := Filter(HasRole(User), messages);
    var assistants := Filter(HasRole(Assistant), messages);
    FilterMember(HasRole(User), messages, users[0]);
    if assistants != [] {
      FilterMember(HasRole(Assistant), messages, assistants[0]);
    }
    var assistant := if assistants == [] then None else Some(assistants[0]);
    PersistedRow(row, users[0], assistant);
    RehydrateIsSound(PersistedTurn(row, users[0], assistant, ParseTurnStatus(row.status).value,
                                   UsageFromRow(row).value));
  }

  /** A turn that was loaded from `row` with messages taken from `ms`. */
  predicate LoadedFrom(t: Turn, row: TurnRow, ms: seq<Message>) {
    TurnOk(t) && t.id == row.id && TurnToRow(t) == StripRow(row) && FromList(t, ms)
  }

  predicate FromList(t: Turn, ms: seq<Message>) {
    t.user in ms && (t.assistant.Some? ==> t.assistant.value in ms)
  }

  lemma {:induction false} TurnsLoaded(rows: seq<TurnRow>, ms: seq<Message>)
    requires TurnsFromRows(rows, ms).Ok?
    requires forall i :: 0 <= i < |ms| ==> ValidMessage(ms[i])
    ensures var ts := TurnsFromRows(rows, ms).value;
            |ts| == |rows| && forall i :: 0 <= i < |ts| ==> LoadedFrom(ts[i], rows[i], ms)
  {
    if rows != [] {
      var own := Filter(InTurn(rows[0].id), ms);
      forall i | 0 <= i < |own|
        ensures own[i] in ms && ValidMessage(own[i])
      {
        FilterMember(InTurn(rows[0].id), ms, own[i]);
      }
      TurnLoaded(rows[0], own);
      TurnsLoaded(rows[1..], ms);
      var t := TurnFromRow(rows[0], own).value;
      var ts := TurnsFromRows(rows, ms).value;
      assert ts == [t] + TurnsFromRows(rows[1..], ms).value;
      assert LoadedFrom(t, rows[0], ms);
    }
  }

  // ---------------------------------------------------------------------------------------------------------
  // Counting messages turn by turn.

  function AllMessages(ts: seq<Turn>): seq<Message> {
    if ts == [] then [] else AllMessages(ts[..|ts| - 1]) + ts[|ts| - 1].Messages()
  }

  lemma {:induction false} AllMessagesLength(ts: seq<Turn>)
    requires TurnsOk(ts)
    ensures |AllMessages(ts)| == |ts| + CountCompleted(ts)
  {
    if ts != [] {
      assert TurnOk(ts[|ts| - 1]);
      AllMessagesLength(ts[..|ts| - 1]);
    }
  }

  lemma {:induction false} AllMessagesMember(ts: seq<Turn>, m: Message)
    ensures m in AllMessages(ts) <==> exists i :: 0 <= i < |ts| && m in ts[i].Messages()
  {
    if ts != [] {
      var n := |ts| - 1;
      AllMessagesMember(ts[..n], m);
      if m in AllMessages(ts[..n]) {
        var i :| 0 <= i < n && m in ts[..n][i].Messages();
        assert m in ts[i].Messages();
      }
      if exists i :: 0 <= i < |ts| && m in ts[i].Messages() {
        var i :| 0 <= i < |ts| && m in ts[i].Messages();
        if i < n {
          assert m in ts[..n][i].Messages();
        }
      }
    }
  }

  lemma {:induction false} MessagesAre(t: Turn, ms: seq<Message>, m: Message)
    requires TurnOk(t) && FromList(t, ms) && m in t.Messages()
    ensures m in ms && m.turnId == t.id
  {
  }

  /** Messages of two turns have different ids. */
  lemma {:induction false} AcrossTurns(ts: seq<Turn>, ms: seq<Message>, n: nat, a: Message, b: Message)
    requires TurnsOk(ts) && DistinctTurnIds(ts) && Distinct(MessageId, ms) && n < |ts|
    requires forall i :: 0 <= i < |ts| ==> FromList(ts[i], ms)
    requires a in AllMessages(ts[..n]) && b in ts[n].Messages()
    ensures a.id != b.id
  {
    AllMessagesMember(ts[..n], a);
    var k :| 0 <= k < n && a in ts[..n][k].Messages();
    assert TurnOk(ts[k]) && TurnOk(ts[n]);
    MessagesAre(ts[k], ms, a);
    MessagesAre(ts[n], ms, b);
    SameIdSameMessage(ms, a, b);
  }

  lemma {:induction false} WithinTurn(t: Turn, ms: seq<Message>)
    requires TurnOk(t) && FromList(t, ms) && Distinct(MessageId, ms)
    ensures Distinct(MessageId, t.Messages())
  {
    if t.assistant.Some? {
      SameIdSameMessage(ms, t.user, t.assistant.value);
    }
  }

  lemma {:induction false} AllMessagesDistinct(ts: seq<Turn>, ms: seq<Message>)
    requires TurnsOk(ts) && DistinctTurnIds(ts) && Distinct(MessageId, ms)
    requires forall i :: 0 <= i < |ts| ==> FromList(ts[i], ms)
    ensures Distinct(MessageId, AllMessages(ts))
  {
    if ts != [] {
      var n := |ts| - 1;
      var front := AllMessages(ts[..n]);
      var last := ts[n].Messages();
      AllMessagesDistinct(ts[..n], ms);
      assert TurnOk(ts[n]) && FromList(ts[n], ms);
      WithinTurn(ts[n], ms);
      forall i, j | 0 <= i < |front| && 0 <= j < |last|
        ensures MessageId(front[i]) != MessageId(last[j])
      {
        AcrossTurns(ts, ms, n, front[i], last[j]);
      }
      DistinctConcat(MessageId, front, last);
    }
  }

  lemma {:induction false} SameIdSameMessage(ms: seq<Message>, a: Message, b: Message)
    requires Distinct(MessageId, ms) && a in ms && b in ms
    ensures a.id == b.id ==> a == b
  {
    var i :| 0 <= i < |ms| && ms[i] == a;
    var j :| 0 <= j < |ms| && ms[j] == b;
    assert i < j ==> MessageId(ms[i]) != MessageId(ms[j]);
    assert j < i ==> MessageId(ms[j]) != MessageId(ms[i]);
  }

  lemma {:induction false} DistinctConcat<T>(id: T -> Id, a: seq<T>, b: seq<T>)
    requires Distinct(id, a) && Distinct(id, b)
    requires forall i, j :: 0 <= i < |a| && 0 <= j < |b| ==> id(a[i]) != id(b[j])
    ensures Distinct(id, a + b)
  {
    var s := a + b;
    forall i, j | 0 <= i < j < |s|
      ensures id(s[i]) != id(s[j])
    {
      if j < |a| {
        assert id(a[i]) != id(a[j]);
      } else if i < |a| {
        assert id(a[i]) != id(b[j - |a|]);
      } else {
        assert id(b[i - |a|]) != id(b[j - |a|]);
      }
    }
  }

  lemma {:induction false} AllMessagesIds(ts: seq<Turn>)
    ensures Ids(MessageId, AllMessages(ts)) == TurnMessageIds(ts)
  {
    var all := AllMessages(ts);
    forall x | x in Ids(MessageId, all)
      ensures x in TurnMessageIds(ts)
    {
      var k :| 0 <= k < |all| && MessageId(all[k]) == x;
      AllMessagesMember(ts, all[k]);
      var i :| 0 <= i < |ts| && all[k] in ts[i].Messages();
      var j :| 0 <= j < |ts[i].Messages()| && ts[i].Messages()[j] == all[k];
      assert ts[i].Messages()[j].id == x;
    }
    forall x | x in TurnMessageIds(ts)
      ensures x in Ids(MessageId, all)
    {
      var i, j :| 0 <= i < |ts| && 0 <= j < |ts[i].Messages()| && ts[i].Messages()[j].id == x;
      AllMessagesMember(ts, ts[i].Messages()[j]);
      var k :| 0 <= k < |all| && all[k] == ts[i].Messages()[j];
      assert MessageId(all[k]) == x;
    }
  }

  // ---------------------------------------------------------------------------------------------------------
  // The accepted aggregate.

  /** What is known of turns and messages before the aggregate-level checks. */
  predicate Parts(ts: seq<Turn>, ms: seq<Message>) {
    && TurnsOk(ts) && DistinctTurnIds(ts) && Distinct(MessageId, ms)
    && forall i :: 0 <= i < |ts| ==> FromList(ts[i], ms)
  }

  lemma {:induction false} MessageCount(ts: seq<Turn>, ms: seq<Message>)
    requires Parts(ts, ms) && MessageIds(ms) == TurnMessageIds(ts)
    ensures |ms| == |ts| + CountCompleted(ts)
  {
    AllMessagesLength(ts);
    AllMessagesDistinct(ts, ms);
    AllMessagesIds(ts);
    DistinctIdsCount(MessageId, AllMessages(ts));
    DistinctIdsCount(MessageId, ms);
    assert Ids(MessageId, ms) == MessageIds(ms);
  }

  lemma {:induction false} HeldFromList(ts: seq<Turn>, ms: seq<Message>)
    requires forall i :: 0 <= i < |ts| ==> FromList(ts[i], ms)
    requires forall j :: 0 <= j < |ms| ==> ms[j].sequence == j + 1
    ensures AllHeld(ts, ms)
  {
    forall m | m in ms
      ensures Holds(ms, m)
    {
      var j :| 0 <= j < |ms| && ms[j] == m;
    }
    forall i | 0 <= i < |ts|
      ensures Holds(ms, ts[i].user)
      ensures ts[i].assistant.Some? ==> Holds(ms, ts[i].assistant.value)
    {
      assert FromList(ts[i], ms);
    }
  }

  lemma {:induction false} OwnerFromIds(ts: seq<Turn>, ms: seq<Message>, m: Message)
    requires Distinct(MessageId, ms) && m in ms && m.id in TurnMessageIds(ts)
    requires forall i :: 0 <= i < |ts| ==> FromList(ts[i], ms)
    ensures HasOwner(ts, m)
  {
    var i, k :| 0 <= i < |ts| && 0 <= k < |ts[i].Messages()| && ts[i].Messages()[k].id == m.id;
    assert FromList(ts[i], ms);
    SameIdSameMessage(ms, m, ts[i].Messages()[k]);
    assert OwnsMessage(ts[i], m);
  }

  lemma {:induction false} OwnershipFromIds(ts: seq<Turn>, ms: seq<Message>)
    requires Parts(ts, ms) && MessageIds(ms) == TurnMessageIds(ts)
    requires forall j :: 0 <= j < |ms| ==> ms[j].sequence == j + 1
    ensures AllHeld(ts, ms) && AllOwned(ts, ms)
  {
    HeldFromList(ts, ms);
    forall j | 0 <= j < |ms|
      ensures HasOwner(ts, ms[j])
    {
      assert ms[j].id in MessageIds(ms);
      OwnerFromIds(ts, ms, ms[j]);
    }
  }

  lemma {:induction false} OrderedIsSound(c: Conversation, ts: seq<Turn>, ms: seq<Message>)
    requires Parts(ts, ms) && c.createdAt <= c.updatedAt && NormalText(c.title, 200)
    requires RehydrateOrdered(c, ts, ms).Ok?
    ensures Shape(RehydrateOrdered(c, ts, ms).value)
    ensures Loadable(RehydrateOrdered(c, ts, ms).value)
  {
    MessageCount(ts, ms);
    OwnershipFromIds(ts, ms);
    var r := RehydrateOrdered(c, ts, ms).value;
    assert DistinctMessageIds(ms) by {
      forall i, j | 0 <= i < j < |ms|
        ensures ms[i].id != ms[j].id
      {
        assert MessageId(ms[i]) != MessageId(ms[j]);
      }
    }
    assert TurnsNumbered(ts, c.id) && MessagesNumbered(ms, c.id);
    assert ArchivalOk(r);
  }

  lemma {:induction false} PartsLoaded(trs: seq<TurnRow>, mrs: seq<MessageRow>)
    requires Distinct(TurnRowId, trs) && Distinct(MessageRowId, mrs)
    requires MessagesFromRows(mrs).Ok? && TurnsFromRows(trs, MessagesFromRows(mrs).value).Ok?
    ensures var ms := MessagesFromRows(mrs).value;
            Parts(TurnsFromRows(trs, ms).value, ms)
  {
    MessagesLoaded(mrs);
    var ms := MessagesFromRows(mrs).value;
    TurnsLoaded(trs, ms);
    var ts := TurnsFromRows(trs, ms).value;
    forall i | 0 <= i < |ts|
      ensures TurnOk(ts[i]) && FromList(ts[i], ms) && ts[i].id == trs[i].id
    {
      assert LoadedFrom(ts[i], trs[i], ms);
    }
    forall i, j | 0 <= i < j < |ts|
      ensures ts[i].id != ts[j].id
    {
      assert TurnRowId(trs[i]) != TurnRowId(trs[j]);
    }
    forall i, j | 0 <= i < j < |ms|
      ensures MessageId(ms[i]) != MessageId(ms[j])
    {
      assert MessageRowId(mrs[i]) != MessageRowId(mrs[j]);
      assert MessageRows(ms)[i] == mrs[i] && MessageRows(ms)[j] == mrs[j];
    }
  }

  lemma {:induction false} PartsPermute(ts: seq<Turn>, ms: seq<Message>, ts': seq<Turn>, ms': seq<Message>)
    requires Parts(ts, ms) && multiset(ts) == multiset(ts') && multiset(ms) == multiset(ms')
    ensures Parts(ts', ms')
  {
    DistinctPermutes(MessageId, ms, ms');
    assert Distinct(TurnId, ts) by {
      forall i, j | 0 <= i < j < |ts|
        ensures TurnId(ts[i]) != TurnId(ts[j])
      {
        assert ts[i].id != ts[j].id;
      }
    }
    DistinctPermutes(TurnId, ts, ts');
    forall i, j | 0 <= i < j < |ts'|
      ensures ts'[i].id != ts'[j].id
    {
      assert TurnId(ts'[i]) != TurnId(ts'[j]);
    }
    forall i | 0 <= i < |ts'|
      ensures TurnOk(ts'[i]) && FromList(ts'[i], ms')
    {
      SameMembers(ts, ts', ts'[i]);
      var k :| 0 <= k < |ts| && ts[k] == ts'[i];
      assert TurnOk(ts[k]) && FromList(ts[k], ms);
      SameMembers(ms, ms', ts[k].user);
      if ts[k].assistant.Some? {
        SameMembers(ms, ms', ts[k].assistant.value);
      }
    }
  }

  /** Main result: a row set with unique primary keys that the mapper accepts is a well-formed aggregate - turns and
      messages numbered without gaps, each message in exactly one turn, an assistant message exactly on completed
      turns, next sequence after the last message, nothing later than the aggregate - and could be loaded again. */
  lemma {:induction false} LoadIsSound(row: ConversationRow, trs: seq<TurnRow>, mrs: seq<MessageRow>)
    requires Distinct(TurnRowId, trs) && Distinct(MessageRowId, mrs)
    requires ConversationFromRows(row, trs, mrs).Ok?
    ensures Shape(ConversationFromRows(row, trs, mrs).value)
    ensures Loadable(ConversationFromRows(row, trs, mrs).value)
  {
    PartsLoaded(trs, mrs);
    var ms := MessagesFromRows(mrs).value;
    var ts := TurnsFromRows(trs, ms).value;
    SortByPermutes(TurnSequence, ts);
    SortByPermutes(MessageSequenceOf, ms);
    PartsPermute(ts, ms, SortBy(TurnSequence, ts), SortBy(MessageSequenceOf, ms));
    var root := RootOf(row, ParseConversationStatus(row.status).value);
    OptionalFieldNormal(root.title, 200);
    OrderedIsSound(root.(title := OptionalField(root.title, 200).value), SortBy(TurnSequence, ts),
                   SortBy(MessageSequenceOf, ms));
  }

  lemma {:induction false} RehydratedFields(root: Conversation, ts: seq<Turn>, ms: seq<Message>)
    requires RehydrateConversation(root, ts, ms).Ok?
    ensures var c := RehydrateConversation(root, ts, ms).value;
            c.turns == SortBy(TurnSequence, ts) && c.messages == SortBy(MessageSequenceOf, ms) &&
            c == root.(title := StripText(root.title), turns := c.turns, messages := c.messages, nextTurn := c.nextTurn)
  {
  }

  /** Main result, the other round trip: loading accepted rows and storing the aggregate gives the same rows, up to
      white space around text columns; message rows come back unchanged. */
  lemma {:induction false} LoadThenStore(row: ConversationRow, trs: seq<TurnRow>, mrs: seq<MessageRow>)
    requires ConversationFromRows(row, trs, mrs).Ok?
    ensures var c := ConversationFromRows(row, trs, mrs).value;
            ConversationToRow(c) == row.(title := StripText(row.title)) &&
            multiset(TurnRows(c.turns)) == multiset(StripRows(trs)) &&
            multiset(MessageRows(c.messages)) == multiset(mrs)
  {
    var c := ConversationFromRows(row, trs, mrs).value;
    MessagesLoaded(mrs);
    var ms := MessagesFromRows(mrs).value;
    TurnsLoaded(trs, ms);
    var ts := TurnsFromRows(trs, ms).value;
    RehydratedFields(RootOf(row, ParseConversationStatus(row.status).value), ts, ms);
    SortByPermutes(TurnSequence, ts);
    SortByPermutes(MessageSequenceOf, ms);
    assert TurnRows(ts) == StripRows(trs) by {
      forall i | 0 <= i < |ts|
        ensures TurnToRow(ts[i]) == StripRow(trs[i])
      {
        assert LoadedFrom(ts[i], trs[i], ms);
      }
    }
    TurnRowsPermute(c.turns, ts);
    MessageRowsPermute(c.messages, ms);
  }

  lemma {:induction false} TurnRowsPermute(a: seq<Turn>, b: seq<Turn>)
    requires multiset(a) == multiset(b)
    ensures multiset(TurnRows(a)) == multiset(TurnRows(b))
    decreases |a|
  {
    if a == [] {
      NoRows(a, b);
    } else {
      var k := FirstOf(a, b);
      TurnRowsPermute(a[1..], Without(b, k));
      assert TurnRows(a) == [TurnToRow(a[0])] + TurnRows(a[1..]);
      assert TurnRows(Without(b, k)) == Without(TurnRows(b), k);
      ConsWithout(TurnRows(b), k, TurnRows(a[1..]));
    }
  }

  lemma {:induction false} MessageRowsPermute(a: seq<Message>, b: seq<Message>)
    requires multiset(a) == multiset(b)
    ensures multiset(MessageRows(a)) == multiset(MessageRows(b))
    decreases |a|
  {
    if a == [] {
      NoRows(a, b);
    } else {
      var k := FirstOf(a, b);
      MessageRowsPermute(a[1..], Without(b, k));
      assert MessageRows(a) == [MessageToRow(a[0])] + MessageRows(a[1..]);
      assert MessageRows(Without(b, k)) == Without(MessageRows(b), k);
      ConsWithout(MessageRows(b), k, MessageRows(a[1..]));
    }
  }
}
