/** What each operation of the aggregate does, on any aggregate that satisfies the invariant: exactly when it is
    refused and with which error, and otherwise the whole new state. */
module Operations {
  import opened Prelude
  import opened Text
  import opened Aggregate
  import opened AggregateInvariant
  import opened RoundTrip

  /** Optional metadata is absent, or not blank and short enough once trimmed. */
  predicate Fits(text: Option<string>, max: nat) {
    text.Some? ==> 0 < |Strip(text.value)| <= max
  }

  lemma {:induction false} FieldIs(text: Option<string>, max: nat)
    ensures OptionalField(text, max) == if Fits(text, max) then Ok(StripText(text)) else Err(InvalidValue)
  {
  }

  /** Neither text is given, or they differ once trimmed. */
  predicate Apart(a: Option<string>, b: Option<string>) {
    a.Some? && b.Some? ==> Strip(a.value) != Strip(b.value)
  }

  /** Creation is refused exactly for an unusable title. */
  lemma {:induction false} CreateOutcome(id: Id, title: Option<string>, at: Time)
    ensures NewConversation(id, title, at) ==
            if !Fits(title, 200) then Err(InvalidValue)
            else Ok(Conversation(id, StripText(title), Active, at, at, None, [], [], 1, 1))
  {
    FieldIs(title, 200);
  }

  /** The pending turn a start adds. */
  function Opened(c: Conversation, cmd: Command): Turn
    requires cmd.Start?
  {
    Turn(cmd.turnId, c.id, |c.turns| + 1,
         Message(cmd.messageId, c.id, cmd.turnId, User, cmd.content, |c.messages| + 1, cmd.at),
         None, StripText(cmd.requestId), StripText(cmd.key), Pending, None, None, None, None, None, cmd.at, cmd.at, None)
  }

  lemma {:induction false} StartOutcome(c: Conversation, cmd: Command)
    requires Inv(c) && cmd.Start?
    ensures Apply(c, cmd) ==
            if c.status == Archived then Err(ConversationArchived)
            else if cmd.at < c.updatedAt then Err(InvalidValue)
            else if Blank(cmd.content) then Err(MessageContent)
            else if !(Fits(cmd.requestId, 128) && Fits(cmd.key, 255) && Apart(cmd.requestId, cmd.key))
            then Err(InvalidValue)
            else if cmd.key.Some? && exists i :: 0 <= i < |c.turns| && c.turns[i].key == StripText(cmd.key)
            then Err(IdempotencyConflict)
            else Ok(c.(turns := c.turns + [Opened(c, cmd)], messages := c.messages + [Opened(c, cmd).user],
                       nextTurn := |c.turns| + 2, nextMessage := |c.messages| + 2, updatedAt := cmd.at))
  {
    FieldIs(cmd.requestId, 128);
    FieldIs(cmd.key, 255);
  }

  lemma {:induction false} FindTurnAt(turns: seq<Turn>, i: nat)
    requires DistinctTurnIds(turns) && i < |turns|
    ensures FindTurn(turns, turns[i].id) == Some(i)
  {
  }

  /** A turn of an aggregate is no later than the aggregate, and its message is an earlier one. */
  lemma {:induction false} TurnInside(c: Conversation, i: nat)
    requires Inv(c) && i < |c.turns|
    ensures TurnOk(c.turns[i]) && c.turns[i].conversationId == c.id && c.turns[i].updatedAt <= c.updatedAt
    ensures c.turns[i].user.sequence < c.nextMessage
  {
    assert Holds(c.messages, c.turns[i].user);
  }

  /** The assistant message a completion adds. */
  function Answer(c: Conversation, cmd: Command): Message
    requires cmd.Complete?
  {
    Message(cmd.messageId, c.id, cmd.turnId, Assistant, cmd.content, |c.messages| + 1, cmd.at)
  }

  lemma {:induction false} CompleteOutcome(c: Conversation, cmd: Command, i: nat)
    requires Inv(c) && cmd.Complete? && i < |c.turns| && c.turns[i].id == cmd.turnId
    ensures Apply(c, cmd) ==
            if c.status == Archived then Err(ConversationArchived)
            else if cmd.at < c.updatedAt then Err(InvalidValue)
            else if Blank(cmd.content) then Err(MessageContent)
            else if c.turns[i].status != Pending then Err(InvalidTransition)
            else if !(Fits(cmd.provider, 64) && Fits(cmd.model, 255) && Fits(cmd.finish, 64)) then Err(InvalidValue)
            else
              var t := c.turns[i].(assistant := Some(Answer(c, cmd)), status := Completed,
                                   provider := StripText(cmd.provider), model := StripText(cmd.model),
                                   finish := StripText(cmd.finish), usage := cmd.usage,
                                   updatedAt := cmd.at, completedAt := Some(cmd.at));
              Ok(c.(turns := c.turns[i := t], messages := c.messages + [Answer(c, cmd)],
                    nextMessage := |c.messages| + 2, updatedAt := cmd.at))
  {
    FindTurnAt(c.turns, i);
    TurnInside(c, i);
    FieldIs(cmd.provider, 64);
    FieldIs(cmd.model, 255);
    FieldIs(cmd.finish, 64);
  }

  /** The turn a completion leaves. */
  lemma {:induction false} CompletedTurnIs(c: Conversation, cmd: Command, i: nat)
    requires Inv(c) && cmd.Complete? && i < |c.turns| && c.turns[i].id == cmd.turnId && Apply(c, cmd).Ok?
    ensures |Apply(c, cmd).value.turns| == |c.turns|
    ensures var t := Apply(c, cmd).value.turns[i];
            t.id == cmd.turnId && t.conversationId == c.id && t.status == Completed && t.completedAt == Some(cmd.at) &&
            t.user == c.turns[i].user && t.assistant == Some(Answer(c, cmd))
  {
    CompleteOutcome(c, cmd, i);
    TurnInside(c, i);
  }

  lemma {:induction false} FailOutcome(c: Conversation, cmd: Command, i: nat)
    requires Inv(c) && cmd.Fail? && i < |c.turns| && c.turns[i].id == cmd.turnId
    ensures Apply(c, cmd) ==
            if cmd.at < c.updatedAt then Err(InvalidValue)
            else if c.turns[i].status != Pending then Err(InvalidTransition)
            else if !(Fits(cmd.errorCode, 128) && Fits(cmd.provider, 64) && Fits(cmd.model, 255)) then Err(InvalidValue)
            else
              var t := c.turns[i].(status := Failed, errorCode := StripText(cmd.errorCode),
                                   provider := StripText(cmd.provider), model := StripText(cmd.model),
                                   updatedAt := cmd.at, completedAt := Some(cmd.at));
              Ok(c.(turns := c.turns[i := t], updatedAt := cmd.at))
  {
    FindTurnAt(c.turns, i);
    TurnInside(c, i);
    FieldIs(cmd.errorCode, 128);
    FieldIs(cmd.provider, 64);
    FieldIs(cmd.model, 255);
  }

  lemma {:induction false} CancelOutcome(c: Conversation, cmd: Command, i: nat)
    requires Inv(c) && cmd.Cancel? && i < |c.turns| && c.turns[i].id == cmd.turnId
    ensures Apply(c, cmd) ==
            if cmd.at < c.updatedAt then Err(InvalidValue)
            else if c.turns[i].status != Pending then Err(InvalidTransition)
            else
              var t := c.turns[i].(status := Cancelled, updatedAt := cmd.at, completedAt := Some(cmd.at));
              Ok(c.(turns := c.turns[i := t], updatedAt := cmd.at))
  {
    FindTurnAt(c.turns, i);
    TurnInside(c, i);
  }

  /** A turn id that is not in the conversation; completing an archived conversation is refused before that. */
  lemma {:induction false} UnknownTurn(c: Conversation, cmd: Command)
    requires cmd.Complete? || cmd.Fail? || cmd.Cancel?
    requires forall i :: 0 <= i < |c.turns| ==> c.turns[i].id != cmd.turnId
    ensures Apply(c, cmd) == Err(if cmd.Complete? && c.status == Archived then ConversationArchived else TurnNotFound)
  {
  }

  predicate HasPending(c: Conversation, turnId: Id) {
    exists i :: 0 <= i < |c.turns| && c.turns[i].id == turnId && c.turns[i].status == Pending
  }

  /** What a caller can check before a call. */
  predicate Accepts(c: Conversation, cmd: Command) {
    match cmd
    case ArchiveAt(at) => c.status == Archived || c.updatedAt <= at
    case Start(_, _, content, requestId, key, at) =>
      && c.status == Active && c.updatedAt <= at && !Blank(content)
      && Fits(requestId, 128) && Fits(key, 255) && Apart(requestId, key)
      && (key.Some? ==> forall i :: 0 <= i < |c.turns| ==> c.turns[i].key != StripText(key))
    case Complete(turnId, _, content, provider, model, finish, _, at) =>
      && c.status == Active && c.updatedAt <= at && !Blank(content) && HasPending(c, turnId)
      && Fits(provider, 64) && Fits(model, 255) && Fits(finish, 64)
    case Fail(turnId, errorCode, provider, model, at) =>
      && c.updatedAt <= at && HasPending(c, turnId)
      && Fits(errorCode, 128) && Fits(provider, 64) && Fits(model, 255)
    case Cancel(turnId, at) => c.updatedAt <= at && HasPending(c, turnId)
  }

  lemma {:induction false} CloseAcceptedIff(c: Conversation, cmd: Command, i: nat)
    requires Inv(c) && (cmd.Complete? || cmd.Fail? || cmd.Cancel?) && i < |c.turns| && c.turns[i].id == cmd.turnId
    ensures Apply(c, cmd).Ok? <==> Accepts(c, cmd)
  {
    assert HasPending(c, cmd.turnId) <==> c.turns[i].status == Pending by {
      assert forall k :: 0 <= k < |c.turns| && c.turns[k].id == cmd.turnId ==> k == i;
    }
    match cmd
    case Complete(_, _, _, _, _, _, _, _) => CompleteOutcome(c, cmd, i);
    case Fail(_, _, _, _, _) => FailOutcome(c, cmd, i);
    case Cancel(_, _) => CancelOutcome(c, cmd, i);
  }

  /** Main result: an operation succeeds exactly under its guard. */
  lemma {:induction false} AcceptedIff(c: Conversation, cmd: Command)
    requires Inv(c)
    ensures Apply(c, cmd).Ok? <==> Accepts(c, cmd)
  {
    if cmd.Start? {
      StartOutcome(c, cmd);
    } else if !cmd.ArchiveAt? {
      if i :| 0 <= i < |c.turns| && c.turns[i].id == cmd.turnId {
        CloseAcceptedIff(c, cmd, i);
      } else {
        UnknownTurn(c, cmd);
      }
    }
  }

  /** Main result: archiving is idempotent and final. Whatever is called afterwards, the conversation stays archived at
      the same time and gains neither turn nor message, and archiving it again at any time gives it back unchanged. An
      active conversation that is archived is loadable at that moment, and stays so as long as nothing touches it. */
  lemma {:induction false} ArchivingIsFinal(c: Conversation, at: Time, cmds: seq<Command>, again: Time)
    requires Inv(c) && Archive(c, at).Ok? && DrawsNewIdsInRun(Archive(c, at).value, cmds)
    ensures var archived := Archive(c, at).value;
            var later := Run(archived, cmds);
            && later.status == Archived && later.archivedAt == archived.archivedAt
            && later.messages == archived.messages && |later.turns| == |archived.turns|
            && Archive(later, again) == Ok(later)
            && (c.status == Active ==> Loadable(archived) && archived.archivedAt == Some(at))
            && (Loadable(archived) ==> (Loadable(later) <==> later.updatedAt == archived.updatedAt))
  {
    ApplyKeepsInv(c, ArchiveAt(at));
    RunKeepsInvFrom(Archive(c, at).value, cmds);
  }
}
