/** repositories/conversation_mappers.py: aggregates to rows of three tables and back. */
module Mappers {
  import opened Prelude
  import opened Aggregate

  datatype ConversationRow = ConversationRow(
    id: Id,
    title: Option<string>,
    status: string,
    nextSequence: int,
    createdAt: Time,
    updatedAt: Time,
    archivedAt: Option<Time>)

  datatype TurnRow = TurnRow(
    id: Id,
    conversationId: Id,
    sequence: int,
    requestId: Option<string>,
    key: Option<string>,
    status: string,
    provider: Option<string>,
    model: Option<string>,
    finish: Option<string>,
    promptTokens: Option<int>,
    completionTokens: Option<int>,
    totalTokens: Option<int>,
    errorCode: Option<string>,
    createdAt: Time,
    updatedAt: Time,
    completedAt: Option<Time>)

  datatype MessageRow = MessageRow(
    id: Id,
    conversationId: Id,
    turnId: Id,
    role: string,
    content: string,
    sequence: int,
    createdAt: Time)

  // ---------------------------------------------------------------------------------------------------------
  // To rows.

  function RoleName(role: Role): string {
    match role case User => "user" case Assistant => "assistant"
  }

  function TurnStatusName(status: TurnStatus): string {
    match status
    case Pending => "pending"
    case Completed => "completed"
    case Failed => "failed"
    case Cancelled => "cancelled"
  }

  function ConversationStatusName(status: ConversationStatus): string {
    match status case Active => "active" case Archived => "archived"
  }

  function MessageToRow(m: Message): MessageRow {
    MessageRow(m.id, m.conversationId, m.turnId, RoleName(m.role), m.content, m.sequence, m.createdAt)
  }

  function Tokens(count: Option<nat>): Option<int> {
    match count case None => None case Some(n) => Some(n)
  }

  function TurnToRow(t: Turn): TurnRow {
    TurnRow(t.id, t.conversationId, t.sequence, t.requestId, t.key, TurnStatusName(t.status), t.provider, t.model,
            t.finish,
            if t.usage == None then None else Tokens(t.usage.value.prompt),
            if t.usage == None then None else Tokens(t.usage.value.completion),
            if t.usage == None then None else Tokens(t.usage.value.total),
            t.errorCode, t.createdAt, t.updatedAt, t.completedAt)
  }

  function ConversationToRow(c: Conversation): ConversationRow {
    ConversationRow(c.id, c.title, ConversationStatusName(c.status), c.nextMessage, c.createdAt, c.updatedAt,
                    c.archivedAt)
  }

  function TurnRows(turns: seq<Turn>): (rows: seq<TurnRow>)
    ensures |rows| == |turns|
    ensures forall i :: 0 <= i < |turns| ==> rows[i] == TurnToRow(turns[i])
  {
    seq(|turns|, i requires 0 <= i < |turns| => TurnToRow(turns[i]))
  }

  function MessageRows(messages: seq<Message>): (rows: seq<MessageRow>)
    ensures |rows| == |messages|
    ensures forall i :: 0 <= i < |messages| ==> rows[i] == MessageToRow(messages[i])
  {
    seq(|messages|, i requires 0 <= i < |messages| => MessageToRow(messages[i]))
  }

  // ---------------------------------------------------------------------------------------------------------
  // From rows.

  function ParseRole(name: string): Option<Role> {
    if name == "user" then Some(User) else if name == "assistant" then Some(Assistant) else None
  }

  function ParseTurnStatus(name: string): Option<TurnStatus> {
    if name == "pending" then Some(Pending)
    else if name == "completed" then Some(Completed)
    else if name == "failed" then Some(Failed)
    else if name == "cancelled" then Some(Cancelled)
    else None
  }

  function ParseConversationStatus(name: string): Option<ConversationStatus> {
    if name == "active" then Some(Active) else if name == "archived" then Some(Archived) else None
  }

  function MessageFromRow(row: MessageRow): Result<Message, Error> {
    var role := ParseRole(row.role);
    var _ :- Check(role.Some?, InvalidValue);
    NewMessage(row.id, row.conversationId, row.turnId, role.value, row.content, row.sequence, row.createdAt)
  }

  function MessagesFromRows(rows: seq<MessageRow>): Result<seq<Message>, Error> {
    if rows == [] then Ok([])
    else
      var m :- MessageFromRow(rows[0]);
      var rest :- MessagesFromRows(rows[1..]);
      Ok([m] + rest)
  }

  function HasRole(role: Role): Message -> bool {
    (m: Message) => m.role == role
  }

  function InTurn(turnId: Id): Message -> bool {
    (m: Message) => m.turnId == turnId
  }

  /** TokenUsage.__post_init__ refuses negative counts. */
  function CountFromColumn(column: Option<int>): Result<Option<nat>, Error> {
    match column
    case None => Ok(None)
    case Some(n) => if n < 0 then Err(InvalidValue) else Ok(Some(n as nat))
  }

  /** No usage when all three columns are empty. */
  function UsageFromRow(row: TurnRow): Result<Option<Usage>, Error> {
    if row.promptTokens == None && row.completionTokens == None && row.totalTokens == None then Ok(None)
    else
      var prompt :- CountFromColumn(row.promptTokens);
      var completion :- CountFromColumn(row.completionTokens);
      var total :- CountFromColumn(row.totalTokens);
      Ok(Some(Usage(prompt, completion, total)))
  }

  /** _turn_to_domain */
  function TurnFromRow(row: TurnRow, messages: seq<Message>): Result<Turn, Error> {
    var users := Filter(HasRole(User), messages);
    var assistants := Filter(HasRole(Assistant), messages);
    var _ :- Check(|users| == 1 && |assistants| <= 1, TurnMessageConflict);
    var status := ParseTurnStatus(row.status);
    var _ :- Check(status.Some?, InvalidValue);
    var usage :- UsageFromRow(row);
    RehydrateTurn(Turn(row.id, row.conversationId, row.sequence, users[0],
                       if assistants == [] then None else Some(assistants[0]), row.requestId, row.key, status.value,
                       row.provider, row.model, row.finish, usage, row.errorCode, row.createdAt, row.updatedAt,
                       row.completedAt))
  }

  function TurnsFromRows(rows: seq<TurnRow>, messages: seq<Message>): Result<seq<Turn>, Error> {
    if rows == [] then Ok([])
    else
      var t :- TurnFromRow(rows[0], Filter(InTurn(rows[0].id), messages));
      var rest :- TurnsFromRows(rows[1..], messages);
      Ok([t] + rest)
  }

  /** The scalar columns of the aggregate root, as rehydrate receives them. */
  function RootOf(row: ConversationRow, status: ConversationStatus): Conversation {
    Conversation(row.id, row.title, status, row.createdAt, row.updatedAt, row.archivedAt, [], [], 0, row.nextSequence)
  }

  /** conversation_to_domain */
  function ConversationFromRows(row: ConversationRow, turns: seq<TurnRow>, messages: seq<MessageRow>)
    : Result<Conversation, Error>
  {
    var ms :- MessagesFromRows(messages);
    var ts :- TurnsFromRows(turns, ms);
    var status := ParseConversationStatus(row.status);
    var _ :- Check(status.Some?, InvalidValue);
    RehydrateConversation(RootOf(row, status.value), ts, ms)
  }

  function GroupOf(byTurn: map<Id, seq<Message>>, id: Id): seq<Message> {
    if id in byTurn then byTurn[id] else []
  }

  lemma {:induction false} GroupSnoc(id: Id, before: seq<Message>, message: Message)
    ensures Filter(InTurn(id), before + [message]) ==
            Filter(InTurn(id), before) + (if id == message.turnId then [message] else [])
  {
    FilterAppend(InTurn(id), before, [message]);
    assert [message][1..] == [];
  }

  /** Every turn's messages so far. */
  ghost predicate Grouped(byTurn: map<Id, seq<Message>>, messages: seq<Message>) {
    forall id: Id :: GroupOf(byTurn, id) == Filter(InTurn(id), messages)
  }

  lemma {:induction false} GroupedSnoc(byTurn: map<Id, seq<Message>>, before: seq<Message>, message: Message)
    requires Grouped(byTurn, before)
    ensures Grouped(byTurn[message.turnId := GroupOf(byTurn, message.turnId) + [message]], before + [message])
  {
    forall id: Id
      ensures GroupOf(byTurn[message.turnId := GroupOf(byTurn, message.turnId) + [message]], id) ==
              Filter(InTurn(id), before + [message])
    {
      GroupSnoc(id, before, message);
      assert GroupOf(byTurn, id) == Filter(InTurn(id), before);
    }
  }

  /** messages_by_turn: the dictionary filled message by message. */
  method GroupByTurn(messages: seq<Message>) returns (byTurn: map<Id, seq<Message>>)
    ensures Grouped(byTurn, messages)
  {
    byTurn := map[];
    for i := 0 to |messages|
      invariant Grouped(byTurn, messages[..i])
    {
      var message := messages[i];
      GroupedSnoc(byTurn, messages[..i], message);
      assert messages[..i + 1] == messages[..i] + [message];
      byTurn := byTurn[message.turnId := GroupOf(byTurn, message.turnId) + [message]];
    }
    assert messages[..|messages|] == messages;
  }

  method TurnsOf(rows: seq<TurnRow>, messages: seq<Message>, byTurn: map<Id, seq<Message>>)
    returns (r: Result<seq<Turn>, Error>)
    requires Grouped(byTurn, messages)
    ensures r == TurnsFromRows(rows, messages)
  {
    var ts: seq<Turn> := [];
    ghost var all := TurnsFromRows(rows, messages);
    assert rows[0..] == rows && (all.Ok? ==> ts + all.value == all.value);
    for k := 0 to |rows|
      invariant TurnsFromRows(rows, messages) ==
                var rest := TurnsFromRows(rows[k..], messages); if rest.Err? then rest else Ok(ts + rest.value)
    {
      assert rows[k..][0] == rows[k] && rows[k..][1..] == rows[k + 1..];
      var t := TurnFromRow(rows[k], GroupOf(byTurn, rows[k].id));
      if t.Err? {
        return Err(t.error);
      }
      ghost var rest := TurnsFromRows(rows[k + 1..], messages);
      assert rest.Ok? ==> ts + ([t.value] + rest.value) == ts + [t.value] + rest.value;
      ts := ts + [t.value];
    }
    assert rows[|rows|..] == [] && ts + [] == ts;
    return Ok(ts);
  }

  /** The mapper as the source runs it. */
  method LoadConversation(row: ConversationRow, turns: seq<TurnRow>, messages: seq<MessageRow>)
    returns (r: Result<Conversation, Error>)
    ensures r == ConversationFromRows(row, turns, messages)
  {
    var parsed := MessagesFromRows(messages);
    if parsed.Err? {
      return Err(parsed.error);
    }
    var byTurn := GroupByTurn(parsed.value);
    var ts := TurnsOf(turns, parsed.value, byTurn);
    if ts.Err? {
      return Err(ts.error);
    }
    var status := ParseConversationStatus(row.status);
    if status == None {
      return Err(InvalidValue);
    }
    return RehydrateConversation(RootOf(row, status.value), ts.value, parsed.value);
  }
}
