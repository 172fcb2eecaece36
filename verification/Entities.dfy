/** ConversationTurn and Conversation of domain/conversations/entities.py as the objects the source mutates. Each
    method is proved against the function of module Aggregate with the same name: on success the object's value is
    the function's result, on an error the object is unchanged. */
module Entities {
  import opened Prelude
  import A = Aggregate

  type Id = A.Id
  type Time = A.Time
  type Error = A.Error

  /** A call either reaches the specified value or fails with the specified error and changes nothing. */
  ghost predicate Outcome<T, R>(spec: Result<T, Error>, before: T, after: T, r: Result<R, Error>) {
    match spec
    case Ok(v) => r.Ok? && after == v
    case Err(e) => r == Err(e) && after == before
  }

  class ConversationTurn {
    const id: Id
    const conversationId: Id
    const sequence: int
    const userMessage: A.Message
    const requestId: Option<string>
    const idempotencyKey: Option<string>
    const createdAt: Time
    var assistantMessage: Option<A.Message>
    var status: A.TurnStatus
    var providerName: Option<string>
    var modelName: Option<string>
    var finishReason: Option<string>
    var usage: Option<A.Usage>
    var safeErrorCode: Option<string>
    var updatedAt: Time
    var completedAt: Option<Time>

    function Value(): A.Turn
      reads this
    {
      A.Turn(id, conversationId, sequence, userMessage, assistantMessage, requestId, idempotencyKey, status,
             providerName, modelName, finishReason, usage, safeErrorCode, createdAt, updatedAt, completedAt)
    }

    constructor (t: A.Turn)
      ensures Value() == t
    {
      id, conversationId, sequence, userMessage := t.id, t.conversationId, t.sequence, t.user;
      requestId, idempotencyKey, createdAt := t.requestId, t.key, t.createdAt;
      assistantMessage, status, providerName, modelName := t.assistant, t.status, t.provider, t.model;
      finishReason, usage, safeErrorCode := t.finish, t.usage, t.errorCode;
      updatedAt, completedAt := t.updatedAt, t.completedAt;
    }

    method Complete(assistant: A.Message, provider: Option<string>, model: Option<string>, finish: Option<string>,
                    usage: Option<A.Usage>, at: Time)
      returns (r: Result<(), Error>)
      modifies this
      ensures Outcome(A.CompleteOne(old(Value()), assistant, provider, model, finish, usage, at), old(Value()),
                      Value(), r)
    {
      var _ :- A.Check(status == A.Pending, A.InvalidTransition);
      var _ :- A.Check(assistantMessage == None, A.TurnMessageConflict);
      var _ :- A.ValidateMessage(conversationId, id, assistant, A.Assistant);
      var _ :- A.Check(assistant.sequence > userMessage.sequence, A.MessageSequence);
      var normalizedProvider :- A.OptionalField(provider, 64);
      var normalizedModel :- A.OptionalField(model, 255);
      var normalizedFinish :- A.OptionalField(finish, 64);
      var _ :- A.Check(at >= updatedAt, A.InvalidValue);
      assistantMessage := Some(assistant);
      providerName, modelName, finishReason := normalizedProvider, normalizedModel, normalizedFinish;
      this.usage := usage;
      safeErrorCode := None;
      status := A.Completed;
      updatedAt, completedAt := at, Some(at);
      return Ok(());
    }

    method Fail(errorCode: Option<string>, provider: Option<string>, model: Option<string>, at: Time)
      returns (r: Result<(), Error>)
      modifies this
      ensures Outcome(A.FailOne(old(Value()), errorCode, provider, model, at), old(Value()), Value(), r)
    {
      var _ :- A.Check(status == A.Pending, A.InvalidTransition);
      var normalizedError :- A.OptionalField(errorCode, 128);
      var normalizedProvider :- A.OptionalField(provider, 64);
      var normalizedModel :- A.OptionalField(model, 255);
      var _ :- A.Check(at >= updatedAt, A.InvalidValue);
      providerName, modelName, safeErrorCode := normalizedProvider, normalizedModel, normalizedError;
      status := A.Failed;
      updatedAt, completedAt := at, Some(at);
      return Ok(());
    }

    method Cancel(at: Time) returns (r: Result<(), Error>)
      modifies this
      ensures Outcome(A.CancelOne(old(Value()), at), old(Value()), Value(), r)
    {
      var _ :- A.Check(status == A.Pending, A.InvalidTransition);
      var _ :- A.Check(at >= updatedAt, A.InvalidValue);
      status := A.Cancelled;
      updatedAt, completedAt := at, Some(at);
      return Ok(());
    }
  }

  function TurnValues(turns: seq<ConversationTurn>): (r: seq<A.Turn>)
    reads turns
    ensures |r| == |turns|
    ensures forall i :: 0 <= i < |turns| ==> r[i] == turns[i].Value()
  {
    seq(|turns|, i requires 0 <= i < |turns| reads turns => turns[i].Value())
  }

  class Conversation {
    const id: Id
    const title: Option<string>
    const createdAt: Time
    var status: A.ConversationStatus
    var updatedAt: Time
    var archivedAt: Option<Time>
    var turns: seq<ConversationTurn>
    var messages: seq<A.Message>
    var nextTurnSequence: int
    var nextMessageSequence: int

    /** No turn object appears twice. */
    ghost predicate Valid()
      reads this
    {
      forall i, j :: 0 <= i < j < |turns| ==> turns[i] != turns[j]
    }

    function Value(): A.Conversation
      reads this, turns
    {
      A.Conversation(id, title, status, createdAt, updatedAt, archivedAt, TurnValues(turns), messages,
                     nextTurnSequence, nextMessageSequence)
    }

    /** An object with the given value, as rehydrate returns it. */
    constructor (c: A.Conversation)
      ensures Valid() && Value() == c
      ensures fresh(turns)
    {
      id, title, createdAt, status, updatedAt := c.id, c.title, c.createdAt, c.status, c.updatedAt;
      archivedAt, messages := c.archivedAt, c.messages;
      nextTurnSequence, nextMessageSequence := c.nextTurn, c.nextMessage;
      turns := [];
      new;
      for i := 0 to |c.turns|
        invariant id == c.id && title == c.title && createdAt == c.createdAt && status == c.status
        invariant updatedAt == c.updatedAt && archivedAt == c.archivedAt && messages == c.messages
        invariant nextTurnSequence == c.nextTurn && nextMessageSequence == c.nextMessage
        invariant |turns| == i && Valid()
        invariant forall k :: 0 <= k < i ==> fresh(turns[k]) && turns[k].Value() == c.turns[k]
      {
        var t := new ConversationTurn(c.turns[i]);
        turns := turns + [t];
      }
      assert TurnValues(turns) == c.turns;
    }

    method Archive(at: Time) returns (r: Result<(), Error>)
      requires Valid()
      modifies this
      ensures Valid() && turns == old(turns)
      ensures Outcome(A.Archive(old(Value()), at), old(Value()), Value(), r)
    {
      if status == A.Archived {
        return Ok(());
      }
      var _ :- A.Check(at >= updatedAt, A.InvalidValue);
      status := A.Archived;
      archivedAt := Some(at);
      updatedAt := at;
      return Ok(());
    }

    method StartTurn(turnId: Id, messageId: Id, content: string, requestId: Option<string>, key: Option<string>,
                     at: Time)
      returns (r: Result<ConversationTurn, Error>)
      requires Valid()
      modifies this
      ensures Valid()
      ensures Outcome(A.StartTurn(old(Value()), turnId, messageId, content, requestId, key, at),
                      old(Value()), Value(), r)
      ensures r.Ok? ==> fresh(r.value) && turns == old(turns) + [r.value]
      ensures r.Err? ==> turns == old(turns)
    {
      if status != A.Active {
        return Err(A.ConversationArchived);
      }
      if at < updatedAt {
        return Err(A.InvalidValue);
      }
      var user := A.NewMessage(messageId, id, turnId, A.User, content, nextMessageSequence, at);
      if user.Err? {
        return Err(user.error);
      }
      var value := A.NewTurn(turnId, id, nextTurnSequence, user.value, requestId, key, at);
      if value.Err? {
        return Err(value.error);
      }
      var taken := KeyTaken(value.value.key);
      if taken {
        return Err(A.IdempotencyConflict);
      }
      var turn := Append(value.value);
      return Ok(turn);
    }

    /** The assignments of start_turn. */
    method Append(value: A.Turn) returns (turn: ConversationTurn)
      requires Valid()
      modifies this
      ensures Valid() && fresh(turn) && turns == old(turns) + [turn]
      ensures var c := old(Value());
              Value() == c.(turns := c.turns + [value], messages := c.messages + [value.user],
                            nextTurn := c.nextTurn + 1,
                            nextMessage := c.nextMessage + 1, updatedAt := value.createdAt)
    {
      turn := new ConversationTurn(value);
      turns := turns + [turn];
      messages := messages + [value.user];
      nextTurnSequence := nextTurnSequence + 1;
      nextMessageSequence := nextMessageSequence + 1;
      updatedAt := value.createdAt;
      OneTurnAdded(turn);
    }

    twostate lemma OneTurnAdded(new turn: ConversationTurn)
      requires turns == old(turns) + [turn]
      requires forall t :: t in old(turns) ==> unchanged(t)
      ensures TurnValues(turns) == old(TurnValues(turns)) + [turn.Value()]
    {
      SameValues(old(turns));
    }

    twostate lemma SameValues(ts: seq<ConversationTurn>)
      requires forall t :: t in ts ==> unchanged(t)
      ensures TurnValues(ts) == old(TurnValues(ts))
    {
      forall k | 0 <= k < |ts|
        ensures ts[k].Value() == old(ts[k].Value())
      {
        assert ts[k] in ts;
      }
    }

    method KeyTaken(key: Option<string>) returns (taken: bool)
      ensures taken == A.KeyTaken(TurnValues(turns), key)
    {
      if key == None {
        return false;
      }
      for i := 0 to |turns|
        invariant forall k :: 0 <= k < i ==> turns[k].idempotencyKey != key
      {
        if turns[i].idempotencyKey == key {
          assert TurnValues(turns)[i].key == key;
          return true;
        }
      }
      return false;
    }

    /** The object at the place where the turn id is found. */
    ghost predicate Located(values: seq<A.Turn>, turnId: Id, turn: ConversationTurn)
      reads this
    {
      var i := A.FindTurn(values, turnId);
      i.Some? && i.value < |turns| && turns[i.value] == turn
    }

    /** _turn: the first turn with the id. */
    method FindTurn(turnId: Id) returns (index: Option<nat>)
      ensures index == A.FindTurn(TurnValues(turns), turnId)
    {
      for i := 0 to |turns|
        invariant forall k :: 0 <= k < i ==> turns[k].id != turnId
      {
        if turns[i].id == turnId {
          return Some(i);
        }
      }
      return None;
    }

    method CompleteTurn(turnId: Id, messageId: Id, content: string, provider: Option<string>, model: Option<string>,
                        finish: Option<string>, usage: Option<A.Usage>, at: Time)
      returns (r: Result<ConversationTurn, Error>)
      requires Valid()
      modifies this, turns
      ensures Valid() && turns == old(turns)
      ensures Outcome(A.CompleteTurn(old(Value()), turnId, messageId, content, provider, model, finish, usage, at),
                      old(Value()), Value(), r)
      ensures r.Ok? ==> Located(old(Value()).turns, turnId, r.value)
    {
      if status != A.Active {
        return Err(A.ConversationArchived);
      }
      var index := FindTurn(turnId);
      if index == None {
        return Err(A.TurnNotFound);
      }
      if at < updatedAt {
        return Err(A.InvalidValue);
      }
      var assistant := A.NewMessage(messageId, id, turnId, A.Assistant, content, nextMessageSequence, at);
      if assistant.Err? {
        return Err(assistant.error);
      }
      r := CompleteAt(index.value, assistant.value, provider, model, finish, usage, at);
    }

    method CompleteAt(index: nat, assistant: A.Message, provider: Option<string>, model: Option<string>,
                      finish: Option<string>, usage: Option<A.Usage>, at: Time)
      returns (r: Result<ConversationTurn, Error>)
      requires Valid() && index < |turns|
      modifies this, turns
      ensures Valid() && turns == old(turns)
      ensures Outcome(A.CompleteAt(old(Value()), index, assistant, provider, model, finish, usage, at),
                      old(Value()), Value(), r)
      ensures r.Ok? ==> r.value == turns[index]
    {
      var turn := turns[index];
      ghost var before := TurnValues(turns);
      var closed := turn.Complete(assistant, provider, model, finish, usage, at);
      assert TurnValues(turns) == before[index := turn.Value()] by {
        forall k | 0 <= k < |turns| && k != index
          ensures turns[k].Value() == before[k]
        {
          assert turns[k] != turn;
        }
      }
      if closed.Err? {
        return Err(closed.error);
      }
      messages := messages + [assistant];
      nextMessageSequence := nextMessageSequence + 1;
      updatedAt := at;
      return Ok(turn);
    }

    method FailTurn(turnId: Id, errorCode: Option<string>, provider: Option<string>, model: Option<string>, at: Time)
      returns (r: Result<ConversationTurn, Error>)
      requires Valid()
      modifies this, turns
      ensures Valid() && turns == old(turns)
      ensures Outcome(A.FailTurn(old(Value()), turnId, errorCode, provider, model, at), old(Value()), Value(), r)
      ensures r.Ok? ==> Located(old(Value()).turns, turnId, r.value)
    {
      var index := FindTurn(turnId);
      if index == None {
        return Err(A.TurnNotFound);
      }
      if at < updatedAt {
        return Err(A.InvalidValue);
      }
      r := FailAt(index.value, errorCode, provider, model, at);
    }

    method FailAt(index: nat, errorCode: Option<string>, provider: Option<string>, model: Option<string>, at: Time)
      returns (r: Result<ConversationTurn, Error>)
      requires Valid() && index < |turns|
      modifies this, turns
      ensures Valid() && turns == old(turns)
      ensures Outcome(A.FailAt(old(Value()), index, errorCode, provider, model, at), old(Value()), Value(), r)
      ensures r.Ok? ==> r.value == turns[index]
    {
      var turn := turns[index];
      ghost var before := TurnValues(turns);
      var closed := turn.Fail(errorCode, provider, model, at);
      assert TurnValues(turns) == before[index := turn.Value()] by {
        forall k | 0 <= k < |turns| && k != index
          ensures turns[k].Value() == before[k]
        {
          assert turns[k] != turn;
        }
      }
      if closed.Err? {
        return Err(closed.error);
      }
      updatedAt := at;
      return Ok(turn);
    }

    method CancelTurn(turnId: Id, at: Time) returns (r: Result<ConversationTurn, Error>)
      requires Valid()
      modifies this, turns
      ensures Valid() && turns == old(turns)
      ensures Outcome(A.CancelTurn(old(Value()), turnId, at), old(Value()), Value(), r)
      ensures r.Ok? ==> Located(old(Value()).turns, turnId, r.value)
    {
      var index := FindTurn(turnId);
      if index == None {
        return Err(A.TurnNotFound);
      }
      if at < updatedAt {
        return Err(A.InvalidValue);
      }
      r := CancelAt(index.value, at);
    }

    method CancelAt(index: nat, at: Time) returns (r: Result<ConversationTurn, Error>)
      requires Valid() && index < |turns|
      modifies this, turns
      ensures Valid() && turns == old(turns)
      ensures Outcome(A.CancelAt(old(Value()), index, at), old(Value()), Value(), r)
      ensures r.Ok? ==> r.value == turns[index]
    {
      var turn := turns[index];
      ghost var before := TurnValues(turns);
      var closed := turn.Cancel(at);
      assert TurnValues(turns) == before[index := turn.Value()] by {
        forall k | 0 <= k < |turns| && k != index
          ensures turns[k].Value() == before[k]
        {
          assert turns[k] != turn;
        }
      }
      if closed.Err? {
        return Err(closed.error);
      }
      updatedAt := at;
      return Ok(turn);
    }
  }
}
