/** The conversation aggregate of domain/conversations as values, and each of its operations as a function that
    returns the new value or the error the source raises. */
module Aggregate {
  import opened Prelude
  import opened Text

  type Id = nat
  type Time = int

  datatype Error =
    | InvalidValue | ConversationArchived | TurnNotFound | InvalidTransition | MessageContent | Ownership
    | MessageSequence | TurnMessageConflict | IdempotencyConflict

  datatype Role = User | Assistant

  datatype TurnStatus = Pending | Completed | Failed | Cancelled

  datatype ConversationStatus = Active | Archived

  datatype Usage = Usage(prompt: Option<nat>, completion: Option<nat>, total: Option<nat>)

  datatype Message = Message(
    id: Id,
    conversationId: Id,
    turnId: Id,
    role: Role,
    content: string,
    sequence: int,
    createdAt: Time)

  datatype Turn = Turn(
    id: Id,
    conversationId: Id,
    sequence: int,
    user: Message,
    assistant: Option<Message>,
    requestId: Option<string>,
    key: Option<string>,
    status: TurnStatus,
    provider: Option<string>,
    model: Option<string>,
    finish: Option<string>,
    usage: Option<Usage>,
    errorCode: Option<string>,
    createdAt: Time,
    updatedAt: Time,
    completedAt: Option<Time>)
  {
    /** ConversationTurn.messages */
    function Messages(): seq<Message> {
      [user] + assistant.ToSeq()
    }
  }

  datatype Conversation = Conversation(
    id: Id,
    title: Option<string>,
    status: ConversationStatus,
    createdAt: Time,
    updatedAt: Time,
    archivedAt: Option<Time>,
    turns: seq<Turn>,
    messages: seq<Message>,
    nextTurn: int,
    nextMessage: int)

  function Check(condition: bool, error: Error): (r: Result<(), Error>) {
    if condition then Ok(()) else Err(error)
  }

  /** optional_text with the error the domain raises. */
  function OptionalField(value: Option<string>, max: nat): Result<Option<string>, Error> {
    match OptionalText(value, max)
    case Ok(v) => Ok(v)
    case Err(_) => Err(InvalidValue)
  }

  lemma OptionalFieldNormal(value: Option<string>, max: nat)
    ensures OptionalField(value, max).Ok? ==> NormalText(OptionalField(value, max).value, max)
    ensures NormalText(value, max) <==> OptionalField(value, max) == Ok(value)
  {
    OptionalTextNormal(value, max);
  }

  /** Message.__post_init__ */
  function NewMessage(id: Id, conversationId: Id, turnId: Id, role: Role, content: string, sequence: int, at: Time)
    : Result<Message, Error>
  {
    var _ :- Check(!Blank(content), MessageContent);
    var _ :- Check(sequence >= 1, InvalidValue);
    Ok(Message(id, conversationId, turnId, role, content, sequence, at))
  }

  // ---------------------------------------------------------------------------------------------------------
  // One turn.

  function ValidateMessage(conversationId: Id, turnId: Id, m: Message, expected: Role): Result<(), Error> {
    var _ :- Check(m.conversationId == conversationId, Ownership);
    var _ :- Check(m.turnId == turnId, Ownership);
    Check(m.role == expected, TurnMessageConflict)
  }

  function NewTurn(id: Id, conversationId: Id, sequence: int, user: Message, requestId: Option<string>,
                   key: Option<string>, at: Time)
    : Result<Turn, Error>
  {
    var _ :- Check(sequence >= 1, InvalidValue);
    var request :- OptionalField(requestId, 128);
    var idempotency :- OptionalField(key, 255);
    var _ :- Check(request == None || request != idempotency, InvalidValue);
    var _ :- ValidateMessage(conversationId, id, user, User);
    Ok(Turn(id, conversationId, sequence, user, None, request, idempotency, Pending, None, None, None, None, None,
            at, at, None))
  }

  function CompleteOne(t: Turn, assistant: Message, provider: Option<string>, model: Option<string>,
                       finish: Option<string>, usage: Option<Usage>, at: Time)
    : Result<Turn, Error>
  {
    var _ :- Check(t.status == Pending, InvalidTransition);
    var _ :- Check(t.assistant == None, TurnMessageConflict);
    var _ :- ValidateMessage(t.conversationId, t.id, assistant, Assistant);
    var _ :- Check(assistant.sequence > t.user.sequence, MessageSequence);
    var provider' :- OptionalField(provider, 64);
    var model' :- OptionalField(model, 255);
    var finish' :- OptionalField(finish, 64);
    var _ :- Check(at >= t.updatedAt, InvalidValue);
    Ok(t.(assistant := Some(assistant), provider := provider', model := model', finish := finish', usage := usage,
          errorCode := None, status := Completed, updatedAt := at, completedAt := Some(at)))
  }

  function FailOne(t: Turn, errorCode: Option<string>, provider: Option<string>, model: Option<string>, at: Time)
    : Result<Turn, Error>
  {
    var _ :- Check(t.status == Pending, InvalidTransition);
    var error' :- OptionalField(errorCode, 128);
    var provider' :- OptionalField(provider, 64);
    var model' :- OptionalField(model, 255);
    var _ :- Check(at >= t.updatedAt, InvalidValue);
    Ok(t.(provider := provider', model := model', errorCode := error', status := Failed, updatedAt := at,
          completedAt := Some(at)))
  }

  function CancelOne(t: Turn, at: Time): Result<Turn, Error> {
    var _ :- Check(t.status == Pending, InvalidTransition);
    var _ :- Check(at >= t.updatedAt, InvalidValue);
    Ok(t.(status := Cancelled, updatedAt := at, completedAt := Some(at)))
  }

  /** ConversationTurn.rehydrate; `t` holds the persisted fields. */
  function RehydrateTurn(t: Turn): Result<Turn, Error> {
    var _ :- Check(t.updatedAt >= t.createdAt, InvalidValue);
    var restored :- NewTurn(t.id, t.conversationId, t.sequence, t.user, t.requestId, t.key, t.createdAt);
    if t.status == Pending then
      var _ :- Check(t.assistant == None && t.provider == None && t.model == None && t.finish == None &&
                     t.usage == None && t.errorCode == None && t.completedAt == None, InvalidValue);
      Ok(restored.(updatedAt := t.updatedAt))
    else
      var _ :- Check(t.completedAt.Some?, InvalidValue);
      var _ :- Check(t.updatedAt == t.completedAt.value, InvalidValue);
      if t.status == Completed then
        var _ :- Check(t.assistant.Some?, TurnMessageConflict);
        var _ :- Check(t.errorCode == None, InvalidValue);
        CompleteOne(restored, t.assistant.value, t.provider, t.model, t.finish, t.usage, t.completedAt.value)
      else
        var _ :- Check(t.assistant == None && t.finish == None && t.usage == None, InvalidValue);
        if t.status == Failed then
          FailOne(restored, t.errorCode, t.provider, t.model, t.completedAt.value)
        else
          var _ :- Check(t.provider == None && t.model == None && t.errorCode == None, InvalidValue);
          CancelOne(restored, t.completedAt.value)
  }

  // ---------------------------------------------------------------------------------------------------------
  // The aggregate.

  function NewConversation(id: Id, title: Option<string>, at: Time): Result<Conversation, Error> {
    var title' :- OptionalField(title, 200);
    Ok(Conversation(id, title', Active, at, at, None, [], [], 1, 1))
  }

  function Archive(c: Conversation, at: Time): Result<Conversation, Error> {
    if c.status == Archived then Ok(c)
    else
      var _ :- Check(at >= c.updatedAt, InvalidValue);
      Ok(c.(status := Archived, archivedAt := Some(at), updatedAt := at))
  }

  predicate KeyTaken(turns: seq<Turn>, key: Option<string>) {
    key.Some? && exists i :: 0 <= i < |turns| && turns[i].key == key
  }

  function StartTurn(c: Conversation, turnId: Id, messageId: Id, content: string, requestId: Option<string>,
                     key: Option<string>, at: Time)
    : Result<Conversation, Error>
  {
    var _ :- Check(c.status == Active, ConversationArchived);
    var _ :- Check(at >= c.updatedAt, InvalidValue);
    var user :- NewMessage(messageId, c.id, turnId, User, content, c.nextMessage, at);
    var turn :- NewTurn(turnId, c.id, c.nextTurn, user, requestId, key, at);
    var _ :- Check(!KeyTaken(c.turns, turn.key), IdempotencyConflict);
    Ok(c.(turns := c.turns + [turn], messages := c.messages + [user], nextTurn := c.nextTurn + 1,
          nextMessage := c.nextMessage + 1, updatedAt := at))
  }

  /** Index of the first turn with the id. */
  function FindTurn(turns: seq<Turn>, id: Id): (r: Option<nat>)
    ensures r.Some? ==> r.value < |turns| && turns[r.value].id == id
    ensures r.Some? ==> forall i :: 0 <= i < r.value ==> turns[i].id != id
    ensures r == None ==> forall i :: 0 <= i < |turns| ==> turns[i].id != id
  {
    if turns == [] then None
    else if turns[0].id == id then Some(0)
    else
      match FindTurn(turns[1..], id)
      case None => None
      case Some(i) => Some(i + 1)
  }

  function CompleteTurn(c: Conversation, turnId: Id, messageId: Id, content: string, provider: Option<string>,
                        model: Option<string>, finish: Option<string>, usage: Option<Usage>, at: Time)
    : Result<Conversation, Error>
  {
    var _ :- Check(c.status == Active, ConversationArchived);
    var i := FindTurn(c.turns, turnId);
    var _ :- Check(i.Some?, TurnNotFound);
    var _ :- Check(at >= c.updatedAt, InvalidValue);
    var assistant :- NewMessage(messageId, c.id, turnId, Assistant, content, c.nextMessage, at);
    CompleteAt(c, i.value, assistant, provider, model, finish, usage, at)
  }

  /** The turn at `i` completes with a message that is already built. */
  function CompleteAt(c: Conversation, i: nat, assistant: Message, provider: Option<string>, model: Option<string>,
                      finish: Option<string>, usage: Option<Usage>, at: Time)
    : Result<Conversation, Error>
    requires i < |c.turns|
  {
    var turn :- CompleteOne(c.turns[i], assistant, provider, model, finish, usage, at);
    Ok(c.(turns := c.turns[i := turn], messages := c.messages + [assistant], nextMessage := c.nextMessage + 1,
          updatedAt := at))
  }

  function FailTurn(c: Conversation, turnId: Id, errorCode: Option<string>, provider: Option<string>,
                    model: Option<string>, at: Time)
    : Result<Conversation, Error>
  {
    var i := FindTurn(c.turns, turnId);
    var _ :- Check(i.Some?, TurnNotFound);
    var _ :- Check(at >= c.updatedAt, InvalidValue);
    FailAt(c, i.value, errorCode, provider, model, at)
  }

  function FailAt(c: Conversation, i: nat, errorCode: Option<string>, provider: Option<string>,
                  model: Option<string>, at: Time)
    : Result<Conversation, Error>
    requires i < |c.turns|
  {
    var turn :- FailOne(c.turns[i], errorCode, provider, model, at);
    Ok(c.(turns := c.turns[i := turn], updatedAt := at))
  }

  function CancelTurn(c: Conversation, turnId: Id, at: Time): Result<Conversation, Error> {
    var i := FindTurn(c.turns, turnId);
    var _ :- Check(i.Some?, TurnNotFound);
    var _ :- Check(at >= c.updatedAt, InvalidValue);
    CancelAt(c, i.value, at)
  }

  function CancelAt(c: Conversation, i: nat, at: Time): Result<Conversation, Error>
    requires i < |c.turns|
  {
    var turn :- CancelOne(c.turns[i], at);
    Ok(c.(turns := c.turns[i := turn], updatedAt := at))
  }

  // ---------------------------------------------------------------------------------------------------------
  // Rehydration.

  function TurnSequence(t: Turn): int {
    t.sequence
  }

  function MessageSequenceOf(m: Message): int {
    m.sequence
  }

  function InsertBy<T>(key: T -> int, x: T, s: seq<T>): seq<T> {
    if s == [] || key(x) <= key(s[0]) then [x] + s else [s[0]] + InsertBy(key, x, s[1..])
  }

  /** sorted(s, key=key): stable. */
  function SortBy<T>(key: T -> int, s: seq<T>): seq<T> {
    if s == [] then [] else InsertBy(key, s[0], SortBy(key, s[1..]))
  }

  function TurnMessageIds(turns: seq<Turn>): set<Id> {
    set i, j | 0 <= i < |turns| && 0 <= j < |turns[i].Messages()| :: turns[i].Messages()[j].id
  }

  function MessageIds(messages: seq<Message>): set<Id> {
    set i | 0 <= i < |messages| :: messages[i].id
  }

  /** No turn and no message is later than `at`. */
  predicate NothingAfter(turns: seq<Turn>, messages: seq<Message>, at: Time) {
    (forall i :: 0 <= i < |turns| ==> turns[i].updatedAt <= at) &&
    (forall i :: 0 <= i < |messages| ==> messages[i].createdAt <= at)
  }

  /** Conversation.rehydrate; `c` holds the persisted scalar fields, `turns` and `messages` come in any order. */
  function RehydrateConversation(c: Conversation, turns: seq<Turn>, messages: seq<Message>)
    : Result<Conversation, Error>
  {
    var _ :- Check(c.updatedAt >= c.createdAt, InvalidValue);
    var title :- OptionalField(c.title, 200);
    RehydrateOrdered(c.(title := title), SortBy(TurnSequence, turns), SortBy(MessageSequenceOf, messages))
  }

  /** The checks after sorting. */
  function RehydrateOrdered(c: Conversation, ts: seq<Turn>, ms: seq<Message>): Result<Conversation, Error> {
    var _ :- Check(forall i :: 0 <= i < |ts| ==> ts[i].conversationId == c.id, Ownership);
    var _ :- Check(forall i :: 0 <= i < |ms| ==> ms[i].conversationId == c.id, Ownership);
    var _ :- Check(forall i :: 0 <= i < |ts| ==> ts[i].sequence == i + 1, MessageSequence);
    var _ :- Check(forall i :: 0 <= i < |ms| ==> ms[i].sequence == i + 1, MessageSequence);
    var _ :- Check(MessageIds(ms) == TurnMessageIds(ts), Ownership);
    var _ :- Check(c.nextMessage >= 1, InvalidValue);
    var _ :- Check(c.nextMessage == |ms| + 1, MessageSequence);
    var _ :- Check(NothingAfter(ts, ms, c.updatedAt), InvalidValue);
    var _ :- CheckArchival(c);
    Ok(c.(turns := ts, messages := ms, nextTurn := |ts| + 1))
  }

  function CheckArchival(c: Conversation): Result<(), Error> {
    if c.status == Archived then
      var _ :- Check(c.archivedAt.Some?, InvalidValue);
      Check(c.archivedAt.value == c.updatedAt, InvalidValue)
    else
      Check(c.archivedAt == None, InvalidValue)
  }
}
