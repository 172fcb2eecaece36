/** Storing an aggregate as rows and loading it back, rows in any order. */
module RoundTrip {
  import opened Prelude
  import opened Text
  import opened Aggregate
  import opened AggregateInvariant
  import opened Mappers
  import opened Permutations

  // ---------------------------------------------------------------------------------------------------------
  // The one value the rows cannot tell from None: a usage without any count.

  function NormUsage(usage: Option<Usage>): Option<Usage> {
    if usage == Some(Usage(None, None, None)) then None else usage
  }

  function NormTurn(t: Turn): Turn {
    t.(usage := NormUsage(t.usage))
  }

  function NormTurns(turns: seq<Turn>): (r: seq<Turn>)
    ensures |r| == |turns|
    ensures forall i :: 0 <= i < |turns| ==> r[i] == NormTurn(turns[i])
  {
    seq(|turns|, i requires 0 <= i < |turns| => NormTurn(turns[i]))
  }

  function Norm(c: Conversation): Conversation {
    c.(turns := NormTurns(c.turns))
  }

  predicate SameRows(a: Conversation, b: Conversation) {
    ConversationToRow(a) == ConversationToRow(b) && TurnRows(a.turns) == TurnRows(b.turns) &&
    MessageRows(a.messages) == MessageRows(b.messages)
  }

  lemma {:induction false} NormKeepsRows(c: Conversation)
    ensures SameRows(Norm(c), c)
  {
    assert forall i :: 0 <= i < |c.turns| ==> TurnToRow(NormTurn(c.turns[i])) == TurnToRow(c.turns[i]);
  }

  // ---------------------------------------------------------------------------------------------------------
  // One turn.

  lemma {:induction false} RehydrateAccepts(t: Turn)
    requires TurnOk(t)
    ensures RehydrateTurn(t) == Ok(t)
  {
    OptionalFieldNormal(t.requestId, 128);
    OptionalFieldNormal(t.key, 255);
    OptionalFieldNormal(t.provider, 64);
    OptionalFieldNormal(t.model, 255);
    OptionalFieldNormal(t.finish, 64);
    OptionalFieldNormal(t.errorCode, 128);
  }

  /** What a stored turn's text columns become when it is loaded. */
  function StripText(text: Option<string>): Option<string> {
    if text == None then None else Some(Strip(text.value))
  }

  function StripTurn(t: Turn): Turn {
    t.(requestId := StripText(t.requestId), key := StripText(t.key), provider := StripText(t.provider),
       model := StripText(t.model), finish := StripText(t.finish), errorCode := StripText(t.errorCode))
  }

  predicate ValidMessage(m: Message) {
    m.sequence >= 1 && !Blank(m.content)
  }

  /** The persisted messages of a turn are messages. */
  predicate ValidParts(t: Turn) {
    ValidMessage(t.user) && (t.assistant.Some? ==> ValidMessage(t.assistant.value))
  }

  lemma {:induction false} PendingIsSound(t: Turn)
    requires ValidParts(t) && t.status == Pending && RehydrateTurn(t).Ok?
    ensures TurnOk(RehydrateTurn(t).value) && RehydrateTurn(t).value == StripTurn(t)
  {
    NewTurnOk(t.id, t.conversationId, t.sequence, t.user, t.requestId, t.key, t.createdAt);
  }

  lemma {:induction false} CompletedIsSound(t: Turn)
    requires ValidParts(t) && t.status == Completed && RehydrateTurn(t).Ok?
    ensures TurnOk(RehydrateTurn(t).value) && RehydrateTurn(t).value == StripTurn(t)
  {
    NewTurnOk(t.id, t.conversationId, t.sequence, t.user, t.requestId, t.key, t.createdAt);
    var blank := NewTurn(t.id, t.conversationId, t.sequence, t.user, t.requestId, t.key, t.createdAt).value;
    CompleteOneOk(blank, t.assistant.value, t.provider, t.model, t.finish, t.usage, t.updatedAt);
  }

  lemma {:induction false} FailedIsSound(t: Turn)
    requires ValidParts(t) && t.status == Failed && RehydrateTurn(t).Ok?
    ensures TurnOk(RehydrateTurn(t).value) && RehydrateTurn(t).value == StripTurn(t)
  {
    NewTurnOk(t.id, t.conversationId, t.sequence, t.user, t.requestId, t.key, t.createdAt);
    var blank := NewTurn(t.id, t.conversationId, t.sequence, t.user, t.requestId, t.key, t.createdAt).value;
    FailOneOk(blank, t.errorCode, t.provider, t.model, t.updatedAt);
  }

  lemma {:induction false} CancelledIsSound(t: Turn)
    requires ValidParts(t) && t.status == Cancelled && RehydrateTurn(t).Ok?
    ensures TurnOk(RehydrateTurn(t).value) && RehydrateTurn(t).value == StripTurn(t)
  {
    NewTurnOk(t.id, t.conversationId, t.sequence, t.user, t.requestId, t.key, t.createdAt);
    var blank := NewTurn(t.id, t.conversationId, t.sequence, t.user, t.requestId, t.key, t.createdAt).value;
    CancelOneOk(blank, t.updatedAt);
  }

  /** Rehydration accepts only well-formed turns and changes nothing but white space around text. */
  lemma {:induction false} RehydrateIsSound(t: Turn)
    requires ValidParts(t) && RehydrateTurn(t).Ok?
    ensures TurnOk(RehydrateTurn(t).value)
    ensures RehydrateTurn(t).value == StripTurn(t)
  {
    match t.status
    case Pending => PendingIsSound(t);
    case Completed => CompletedIsSound(t);
    case Failed => FailedIsSound(t);
    case Cancelled => CancelledIsSound(t);
  }

  lemma {:induction false} NormTurnOk(t: Turn)
    requires TurnOk(t)
    ensures TurnOk(NormTurn(t))
  {
  }

  lemma {:induction false} StatusLoads(status: TurnStatus)
    ensures ParseTurnStatus(TurnStatusName(status)) == Some(status)
  {
  }

  lemma {:induction false} UsageLoads(t: Turn)
    ensures UsageFromRow(TurnToRow(t)) == Ok(NormUsage(t.usage))
  {
  }

  /** A turn's row, with its own messages, loads as the turn. */
  lemma {:induction false} TurnRowLoads(t: Turn, messages: seq<Message>)
    requires TurnOk(t)
    requires Filter(HasRole(User), messages) == [t.user]
    requires Filter(HasRole(Assistant), messages) == t.assistant.ToSeq()
    ensures TurnFromRow(TurnToRow(t), messages) == Ok(NormTurn(t))
  {
    StatusLoads(t.status);
    UsageLoads(t);
    NormTurnOk(t);
    RehydrateAccepts(NormTurn(t));
  }

  // ---------------------------------------------------------------------------------------------------------
  // Finding a turn's messages among all messages, in whatever order they come.

  function RoleInTurn(turnId: Id, role: Role): Message -> bool {
    (m: Message) => m.turnId == turnId && m.role == role
  }

  lemma {:induction false} OwnedByTurn(c: Conversation, i: nat, j: nat)
    requires Shape(c) && i < |c.turns| && j < |c.messages| && c.messages[j].turnId == c.turns[i].id
    ensures OwnsMessage(c.turns[i], c.messages[j])
  {
    assert HasOwner(c.turns, c.messages[j]);
    var k :| 0 <= k < |c.turns| && OwnsMessage(c.turns[k], c.messages[j]);
    assert TurnOk(c.turns[k]);
    assert c.turns[k].id == c.turns[i].id;
  }

  lemma {:induction false} TurnMessagesInOrder(c: Conversation, i: nat, role: Role)
    requires Shape(c) && i < |c.turns|
    ensures Filter(RoleInTurn(c.turns[i].id, role), c.messages) ==
            if role == User then [c.turns[i].user] else c.turns[i].assistant.ToSeq()
  {
    var t := c.turns[i];
    assert TurnOk(t) && Holds(c.messages, t.user);
    var keep := RoleInTurn(t.id, role);
    forall j | 0 <= j < |c.messages| && keep(c.messages[j])
      ensures if role == User then c.messages[j] == t.user else t.assistant == Some(c.messages[j])
    {
      OwnedByTurn(c, i, j);
    }
    if role == User {
      FilterOne(keep, c.messages, t.user.sequence - 1);
    } else if t.assistant.Some? {
      FilterOne(keep, c.messages, t.assistant.value.sequence - 1);
    } else {
      FilterNone(keep, c.messages);
    }
  }

  lemma {:induction false} TurnMessagesAnyOrder(c: Conversation, ms: seq<Message>, i: nat)
    requires Shape(c) && i < |c.turns| && multiset(ms) == multiset(c.messages)
    ensures var own := Filter(InTurn(c.turns[i].id), ms);
            Filter(HasRole(User), own) == [c.turns[i].user] &&
            Filter(HasRole(Assistant), own) == c.turns[i].assistant.ToSeq()
  {
    var t := c.turns[i];
    FilterTwice(InTurn(t.id), HasRole(User), RoleInTurn(t.id, User), ms);
    FilterTwice(InTurn(t.id), HasRole(Assistant), RoleInTurn(t.id, Assistant), ms);
    FilterPermutes(RoleInTurn(t.id, User), ms, c.messages);
    FilterPermutes(RoleInTurn(t.id, Assistant), ms, c.messages);
    TurnMessagesInOrder(c, i, User);
    TurnMessagesInOrder(c, i, Assistant);
    SingletonMultiset(Filter(RoleInTurn(t.id, User), ms), t.user);
    var assistants := Filter(RoleInTurn(t.id, Assistant), ms);
    if t.assistant.Some? {
      SingletonMultiset(assistants, t.assistant.value);
    } else {
      assert |assistants| == |multiset(assistants)| == |multiset(t.assistant.ToSeq())| == 0;
    }
  }

  // ---------------------------------------------------------------------------------------------------------
  // All rows.

  /** The first row of an order of `MessageRows(messages)` is the row of some message; the others are an order of
      the rows of the other messages. */
  lemma {:induction false} FirstMessageRow(rows: seq<MessageRow>, messages: seq<Message>) returns (k: nat)
    requires rows != [] && multiset(rows) == multiset(MessageRows(messages))
    ensures k < |messages| && MessageToRow(messages[k]) == rows[0]
    ensures multiset(rows[1..]) == multiset(MessageRows(Without(messages, k)))
  {
    k := FirstOf(rows, MessageRows(messages));
    assert MessageRows(Without(messages, k)) == Without(MessageRows(messages), k);
  }

  lemma {:induction false} FirstTurnRow(rows: seq<TurnRow>, turns: seq<Turn>) returns (k: nat)
    requires rows != [] && multiset(rows) == multiset(TurnRows(turns))
    ensures k < |turns| && TurnToRow(turns[k]) == rows[0]
    ensures multiset(rows[1..]) == multiset(TurnRows(Without(turns, k)))
  {
    k := FirstOf(rows, TurnRows(turns));
    assert TurnRows(Without(turns, k)) == Without(TurnRows(turns), k);
  }

  lemma {:induction false} NoRows<R>(rows: seq<R>, stored: seq<R>)
    requires rows == [] && multiset(rows) == multiset(stored)
    ensures stored == []
  {
    assert |multiset(stored)| == 0;
  }

  /** Putting an element in front of an order of the others gives an order of all. */
  lemma {:induction false} ConsWithout<T>(s: seq<T>, k: nat, rest: seq<T>)
    requires k < |s| && multiset(rest) == multiset(Without(s, k))
    ensures multiset([s[k]] + rest) == multiset(s)
  {
    WithoutMultiset(s, k);
  }

  lemma {:induction false} MessageRowLoads(m: Message)
    requires ValidMessage(m)
    ensures MessageFromRow(MessageToRow(m)) == Ok(m)
  {
  }

  /** When every row of an order of `MessageRows(messages)` comes, an order of `messages` is loaded. */
  lemma {:induction false} MessageRowsLoad(rows: seq<MessageRow>, messages: seq<Message>)
    requires multiset(rows) == multiset(MessageRows(messages))
    requires forall j :: 0 <= j < |messages| ==> ValidMessage(messages[j])
    ensures MessagesFromRows(rows).Ok? && multiset(MessagesFromRows(rows).value) == multiset(messages)
    decreases |rows|
  {
    if rows == [] {
      NoRows(rows, MessageRows(messages));
    } else {
      var k := FirstMessageRow(rows, messages);
      MessageRowsLoad(rows[1..], Without(messages, k));
      MessageRowLoads(messages[k]);
      ConsWithout(messages, k, MessagesFromRows(rows[1..]).value);
    }
  }

  predicate RowLoads(t: Turn, ms: seq<Message>) {
    TurnFromRow(TurnToRow(t), Filter(InTurn(t.id), ms)) == Ok(NormTurn(t))
  }

  lemma {:induction false} TurnRowsLoad(rows: seq<TurnRow>, turns: seq<Turn>, ms: seq<Message>)
    requires multiset(rows) == multiset(TurnRows(turns))
    requires forall i :: 0 <= i < |turns| ==> RowLoads(turns[i], ms)
    ensures TurnsFromRows(rows, ms).Ok? && multiset(TurnsFromRows(rows, ms).value) == multiset(NormTurns(turns))
    decreases |rows|
  {
    if rows == [] {
      NoRows(rows, TurnRows(turns));
    } else {
      var k := FirstTurnRow(rows, turns);
      TurnRowsLoad(rows[1..], Without(turns, k), ms);
      assert RowLoads(turns[k], ms);
      assert NormTurns(Without(turns, k)) == Without(NormTurns(turns), k);
      ConsWithout(NormTurns(turns), k, TurnsFromRows(rows[1..], ms).value);
    }
  }

  /** The condition rehydrate puts on an archived conversation. */
  predicate Loadable(c: Conversation) {
    c.status == Active || c.archivedAt == Some(c.updatedAt)
  }

  lemma {:induction false} MessageHasTurn(turns: seq<Turn>, messages: seq<Message>, j: nat)
    requires AllOwned(turns, messages) && j < |messages|
    ensures messages[j].id in TurnMessageIds(NormTurns(turns))
  {
    var ts := NormTurns(turns);
    assert HasOwner(turns, messages[j]);
    var i :| 0 <= i < |turns| && OwnsMessage(turns[i], messages[j]);
    var k := if messages[j] == ts[i].user then 0 else 1;
    assert ts[i].Messages()[k].id == messages[j].id;
  }

  lemma {:induction false} TurnMessageIsListed(turns: seq<Turn>, messages: seq<Message>, i: nat, k: nat)
    requires AllHeld(turns, messages) && i < |turns| && k < |turns[i].Messages()|
    ensures turns[i].Messages()[k].id in MessageIds(messages)
  {
    var m := turns[i].Messages()[k];
    assert Holds(messages, turns[i].user);
    assert Holds(messages, m);
  }

  lemma {:induction false} OwnIdsMatch(turns: seq<Turn>, messages: seq<Message>)
    requires AllHeld(turns, messages) && AllOwned(turns, messages)
    ensures MessageIds(messages) == TurnMessageIds(NormTurns(turns))
  {
    var ts := NormTurns(turns);
    forall x | x in MessageIds(messages)
      ensures x in TurnMessageIds(ts)
    {
      var j :| 0 <= j < |messages| && messages[j].id == x;
      MessageHasTurn(turns, messages, j);
    }
    forall x | x in TurnMessageIds(ts)
      ensures x in MessageIds(messages)
    {
      var i, k :| 0 <= i < |ts| && 0 <= k < |ts[i].Messages()| && ts[i].Messages()[k].id == x;
      assert ts[i].Messages() == turns[i].Messages();
      TurnMessageIsListed(turns, messages, i, k);
    }
  }

  lemma {:induction false} OrderedAccepts(c: Conversation)
    requires Shape(c)
    ensures RehydrateOrdered(RootOf(ConversationToRow(c), c.status), NormTurns(c.turns), c.messages) ==
            if Loadable(c) then Ok(Norm(c)) else Err(InvalidValue)
  {
    OwnIdsMatch(c.turns, c.messages);
    assert NothingAfter(NormTurns(c.turns), c.messages, c.updatedAt);
  }

  lemma {:induction false} RehydrateConversationAccepts(c: Conversation, ts: seq<Turn>, ms: seq<Message>)
    requires Shape(c)
    requires multiset(ts) == multiset(NormTurns(c.turns)) && multiset(ms) == multiset(c.messages)
    ensures RehydrateConversation(RootOf(ConversationToRow(c), c.status), ts, ms) ==
            if Loadable(c) then Ok(Norm(c)) else Err(InvalidValue)
  {
    assert StrictlySorted(TurnSequence, NormTurns(c.turns));
    assert StrictlySorted(MessageSequenceOf, c.messages);
    SortByRestores(TurnSequence, ts, NormTurns(c.turns));
    SortByRestores(MessageSequenceOf, ms, c.messages);
    OptionalFieldNormal(c.title, 200);
    OrderedAccepts(c);
  }

  lemma {:induction false} MessagesAreValid(c: Conversation, j: nat)
    requires Shape(c) && j < |c.messages|
    ensures ValidMessage(c.messages[j])
  {
    assert HasOwner(c.turns, c.messages[j]);
    var i :| 0 <= i < |c.turns| && OwnsMessage(c.turns[i], c.messages[j]);
    assert TurnOk(c.turns[i]);
  }

  lemma {:induction false} AllRowsLoad(c: Conversation, ms: seq<Message>)
    requires Shape(c) && multiset(ms) == multiset(c.messages)
    ensures forall i :: 0 <= i < |c.turns| ==> RowLoads(c.turns[i], ms)
  {
    forall i | 0 <= i < |c.turns|
      ensures RowLoads(c.turns[i], ms)
    {
      assert TurnOk(c.turns[i]);
      TurnMessagesAnyOrder(c, ms, i);
      TurnRowLoads(c.turns[i], Filter(InTurn(c.turns[i].id), ms));
    }
  }

  lemma {:induction false} AllMessagesAreValid(c: Conversation)
    requires Shape(c)
    ensures forall j :: 0 <= j < |c.messages| ==> ValidMessage(c.messages[j])
  {
    forall j | 0 <= j < |c.messages|
      ensures ValidMessage(c.messages[j])
    {
      MessagesAreValid(c, j);
    }
  }

  lemma {:induction false} RootLoads(c: Conversation)
    ensures ParseConversationStatus(ConversationToRow(c).status) == Some(c.status)
  {
  }

  /** Main result. Every aggregate reachable from creation, stored as rows and loaded from those rows in any order,
      comes back equal (but for a usage without counts, which becomes None) exactly when it is active or was last
      touched by its archiving; otherwise the load is rejected. Storing what came back gives the same rows. */
  lemma {:induction false} StoreThenLoad(c: Conversation, turnRows: seq<TurnRow>, messageRows: seq<MessageRow>)
    requires Shape(c)
    requires multiset(turnRows) == multiset(TurnRows(c.turns))
    requires multiset(messageRows) == multiset(MessageRows(c.messages))
    ensures ConversationFromRows(ConversationToRow(c), turnRows, messageRows) ==
            if Loadable(c) then Ok(Norm(c)) else Err(InvalidValue)
    ensures Loadable(c) ==>
              SameRows(ConversationFromRows(ConversationToRow(c), turnRows, messageRows).value, c)
  {
    NormKeepsRows(c);
    AllMessagesAreValid(c);
    MessageRowsLoad(messageRows, c.messages);
    var ms := MessagesFromRows(messageRows).value;
    AllRowsLoad(c, ms);
    TurnRowsLoad(turnRows, c.turns, ms);
    RootLoads(c);
    RehydrateConversationAccepts(c, TurnsFromRows(turnRows, ms).value, ms);
  }
}
