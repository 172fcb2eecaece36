/** What every run of the aggregate's operations keeps, and how one state of it relates to every later state. */
module AggregateInvariant {
  import opened Prelude
  import opened Text
  import opened Aggregate

  // ---------------------------------------------------------------------------------------------------------
  // Well-formed values.

  predicate MessageOk(m: Message, conversationId: Id, turnId: Id, role: Role) {
    m.conversationId == conversationId && m.turnId == turnId && m.role == role && !Blank(m.content) && m.sequence >= 1
  }

  /** Which result fields a turn carries in each status. */
  predicate ResultOk(t: Turn) {
    match t.status
    case Pending =>
      t.assistant == None && t.provider == None && t.model == None && t.finish == None && t.usage == None &&
      t.errorCode == None && t.completedAt == None
    case Completed =>
      && t.assistant.Some? && MessageOk(t.assistant.value, t.conversationId, t.id, Assistant)
      && t.assistant.value.sequence > t.user.sequence
      && NormalText(t.provider, 64) && NormalText(t.model, 255) && NormalText(t.finish, 64)
      && t.errorCode == None && t.completedAt == Some(t.updatedAt)
    case Failed =>
      && t.assistant == None && t.finish == None && t.usage == None
      && NormalText(t.provider, 64) && NormalText(t.model, 255) && NormalText(t.errorCode, 128)
      && t.completedAt == Some(t.updatedAt)
    case Cancelled =>
      t.assistant == None && t.provider == None && t.model == None && t.finish == None && t.usage == None &&
      t.errorCode == None && t.completedAt == Some(t.updatedAt)
  }

  predicate TurnOk(t: Turn) {
    && t.sequence >= 1
    && MessageOk(t.user, t.conversationId, t.id, User)
    && NormalText(t.requestId, 128) && NormalText(t.key, 255)
    && (t.requestId == None || t.requestId != t.key)
    && t.createdAt <= t.updatedAt
    && ResultOk(t)
  }

  function CountCompleted(turns: seq<Turn>): nat {
    if turns == [] then 0
    else
      var last := turns[|turns| - 1];
      CountCompleted(turns[..|turns| - 1]) + (if last.status == Completed then 1 else 0)
  }

  /** The message sits at the place its sequence number names. */
  predicate Holds(messages: seq<Message>, m: Message) {
    1 <= m.sequence <= |messages| && messages[m.sequence - 1] == m
  }

  predicate OwnsMessage(t: Turn, m: Message) {
    m == t.user || t.assistant == Some(m)
  }

  predicate HasOwner(turns: seq<Turn>, m: Message) {
    exists i :: 0 <= i < |turns| && OwnsMessage(turns[i], m)
  }

  predicate DistinctTurnIds(turns: seq<Turn>) {
    forall i, j :: 0 <= i < j < |turns| ==> turns[i].id != turns[j].id
  }

  predicate DistinctMessageIds(messages: seq<Message>) {
    forall i, j :: 0 <= i < j < |messages| ==> messages[i].id != messages[j].id
  }

  predicate DistinctKeys(turns: seq<Turn>) {
    forall i, j :: 0 <= i < j < |turns| && turns[i].key.Some? ==> turns[i].key != turns[j].key
  }

  predicate TurnsOk(turns: seq<Turn>) {
    forall i :: 0 <= i < |turns| ==> TurnOk(turns[i])
  }

  /** Turns are numbered 1..n in list order. */
  predicate TurnsNumbered(turns: seq<Turn>, id: Id) {
    forall i :: 0 <= i < |turns| ==> turns[i].conversationId == id && turns[i].sequence == i + 1
  }

  /** Messages are numbered 1..m in list order. */
  predicate MessagesNumbered(messages: seq<Message>, id: Id) {
    forall j :: 0 <= j < |messages| ==> messages[j].conversationId == id && messages[j].sequence == j + 1
  }

  /** Every turn's messages are in the list. */
  predicate AllHeld(turns: seq<Turn>, messages: seq<Message>) {
    forall i :: 0 <= i < |turns| ==>
                  Holds(messages, turns[i].user) &&
                  (turns[i].assistant.Some? ==> Holds(messages, turns[i].assistant.value))
  }

  /** Every message belongs to a turn. */
  predicate AllOwned(turns: seq<Turn>, messages: seq<Message>) {
    forall j {:trigger HasOwner(turns, messages[j])} :: 0 <= j < |messages| ==> HasOwner(turns, messages[j])
  }

  predicate ArchivalOk(c: Conversation) {
    && c.createdAt <= c.updatedAt
    && NormalText(c.title, 200)
    && match c.status
       case Active => c.archivedAt == None
       case Archived => c.archivedAt.Some? && c.archivedAt.value <= c.updatedAt
  }

  /** What a loaded aggregate always satisfies. */
  predicate Shape(c: Conversation) {
    && TurnsOk(c.turns) && TurnsNumbered(c.turns, c.id) && DistinctTurnIds(c.turns)
    && MessagesNumbered(c.messages, c.id) && DistinctMessageIds(c.messages)
    && AllHeld(c.turns, c.messages) && AllOwned(c.turns, c.messages)
    && NothingAfter(c.turns, c.messages, c.updatedAt)
    && ArchivalOk(c)
    && c.nextTurn == |c.turns| + 1
    && c.nextMessage == |c.messages| + 1
    && |c.messages| == |c.turns| + CountCompleted(c.turns)
  }

  predicate TimesOrdered(messages: seq<Message>) {
    forall i, j :: 0 <= i < j < |messages| ==> messages[i].createdAt <= messages[j].createdAt
  }

  /** A turn's messages carry the times at which the turn was opened and completed. */
  predicate TimesMatch(t: Turn) {
    t.user.createdAt == t.createdAt && (t.assistant.Some? ==> Some(t.assistant.value.createdAt) == t.completedAt)
  }

  predicate AllTimesMatch(turns: seq<Turn>) {
    forall i :: 0 <= i < |turns| ==> TimesMatch(turns[i])
  }

  /** What operations keep beyond that. */
  predicate History(c: Conversation) {
    DistinctKeys(c.turns) && TimesOrdered(c.messages) && AllTimesMatch(c.turns)
  }

  predicate Inv(c: Conversation) {
    Shape(c) && History(c)
  }

  // ---------------------------------------------------------------------------------------------------------
  // Commands and runs.

  datatype Command =
    | ArchiveAt(at: Time)
    | Start(turnId: Id, messageId: Id, content: string, requestId: Option<string>, key: Option<string>, at: Time)
    | Complete(turnId: Id, messageId: Id, content: string, provider: Option<string>, model: Option<string>,
               finish: Option<string>, usage: Option<Usage>, at: Time)
    | Fail(turnId: Id, errorCode: Option<string>, provider: Option<string>, model: Option<string>, at: Time)
    | Cancel(turnId: Id, at: Time)

  function Apply(c: Conversation, cmd: Command): Result<Conversation, Error> {
    match cmd
    case ArchiveAt(at) => Archive(c, at)
    case Start(turnId, messageId, content, requestId, key, at) =>
      StartTurn(c, turnId, messageId, content, requestId, key, at)
    case Complete(turnId, messageId, content, provider, model, finish, usage, at) =>
      CompleteTurn(c, turnId, messageId, content, provider, model, finish, usage, at)
    case Fail(turnId, errorCode, provider, model, at) => FailTurn(c, turnId, errorCode, provider, model, at)
    case Cancel(turnId, at) => CancelTurn(c, turnId, at)
  }

  /** The identifiers the command draws are not in use (uuid4). */
  predicate DrawsNewIds(c: Conversation, cmd: Command) {
    (cmd.Start? ==> forall i :: 0 <= i < |c.turns| ==> c.turns[i].id != cmd.turnId) &&
    (cmd.Start? || cmd.Complete? ==> forall j :: 0 <= j < |c.messages| ==> c.messages[j].id != cmd.messageId)
  }

  /** A call that raises leaves the aggregate as it was. */
  function Run(c: Conversation, cmds: seq<Command>): Conversation
    decreases |cmds|
  {
    if cmds == [] then c
    else
      var r := Apply(c, cmds[0]);
      Run(if r.Ok? then r.value else c, cmds[1..])
  }

  predicate DrawsNewIdsInRun(c: Conversation, cmds: seq<Command>)
    decreases |cmds|
  {
    cmds == [] ||
    (DrawsNewIds(c, cmds[0]) &&
     var r := Apply(c, cmds[0]);
     DrawsNewIdsInRun(if r.Ok? then r.value else c, cmds[1..]))
  }

  // ---------------------------------------------------------------------------------------------------------
  // One turn.

  lemma {:induction false} NewTurnOk(id: Id, conversationId: Id, sequence: int, user: Message,
                                     requestId: Option<string>, key: Option<string>, at: Time)
    requires user.sequence >= 1 && !Blank(user.content)
    requires NewTurn(id, conversationId, sequence, user, requestId, key, at).Ok?
    ensures var t := NewTurn(id, conversationId, sequence, user, requestId, key, at).value;
            TurnOk(t) && t.status == Pending && t.id == id && t.sequence == sequence && t.user == user &&
            t.conversationId == conversationId && t.createdAt == t.updatedAt == at
  {
    OptionalFieldNormal(requestId, 128);
    OptionalFieldNormal(key, 255);
  }

  /** The only change a turn ever undergoes: from pending to a terminal status, everything else that identifies it
      kept. */
  predicate Closes(t: Turn, t': Turn) {
    && t.status == Pending && t'.status != Pending
    && t'.id == t.id && t'.conversationId == t.conversationId && t'.sequence == t.sequence && t'.user == t.user
    && t'.requestId == t.requestId && t'.key == t.key && t'.createdAt == t.createdAt
  }

  lemma {:induction false} CompleteOneOk(t: Turn, assistant: Message, provider: Option<string>, model: Option<string>,
                                         finish: Option<string>, usage: Option<Usage>, at: Time)
    requires TurnOk(t) && assistant.sequence >= 1 && !Blank(assistant.content)
    requires CompleteOne(t, assistant, provider, model, finish, usage, at).Ok?
    ensures var t' := CompleteOne(t, assistant, provider, model, finish, usage, at).value;
            TurnOk(t') && Closes(t, t') && t'.status == Completed && t'.assistant == Some(assistant) &&
            t'.updatedAt == at
  {
    OptionalFieldNormal(provider, 64);
    OptionalFieldNormal(model, 255);
    OptionalFieldNormal(finish, 64);
  }

  lemma {:induction false} FailOneOk(t: Turn, errorCode: Option<string>, provider: Option<string>,
                                     model: Option<string>, at: Time)
    requires TurnOk(t) && FailOne(t, errorCode, provider, model, at).Ok?
    ensures var t' := FailOne(t, errorCode, provider, model, at).value;
            TurnOk(t') && Closes(t, t') && t'.status == Failed && t'.assistant == None && t'.updatedAt == at
  {
    OptionalFieldNormal(errorCode, 128);
    OptionalFieldNormal(provider, 64);
    OptionalFieldNormal(model, 255);
  }

  lemma {:induction false} CancelOneOk(t: Turn, at: Time)
    requires TurnOk(t) && CancelOne(t, at).Ok?
    ensures var t' := CancelOne(t, at).value;
            TurnOk(t') && Closes(t, t') && t'.status == Cancelled && t'.assistant == None && t'.updatedAt == at
  {
  }

  // ---------------------------------------------------------------------------------------------------------
  // The aggregate.

  lemma {:induction false} CountUpdate(turns: seq<Turn>, i: nat, t': Turn)
    requires i < |turns| && turns[i].status == Pending
    ensures CountCompleted(turns[i := t']) == CountCompleted(turns) + (if t'.status == Completed then 1 else 0)
  {
    var n := |turns| - 1;
    var turns' := turns[i := t'];
    if i == n {
      assert turns'[..n] == turns[..n];
    } else {
      assert turns'[..n] == turns[..n][i := t'];
      CountUpdate(turns[..n], i, t');
    }
  }

  /** Replacing turn i by its closed form. */
  lemma {:induction false} TurnsUpdate(turns: seq<Turn>, id: Id, i: nat, t': Turn)
    requires i < |turns| && TurnsOk(turns) && TurnsNumbered(turns, id) && DistinctTurnIds(turns) && DistinctKeys(turns)
    requires AllTimesMatch(turns) && Closes(turns[i], t') && TurnOk(t') && TimesMatch(t')
    ensures var ts := turns[i := t'];
            TurnsOk(ts) && TurnsNumbered(ts, id) && DistinctTurnIds(ts) && DistinctKeys(ts) && AllTimesMatch(ts)
  {
    var ts := turns[i := t'];
    forall k | 0 <= k < |ts|
      ensures TurnOk(ts[k]) && TimesMatch(ts[k]) && ts[k].id == turns[k].id && ts[k].key == turns[k].key
    {
    }
  }

  lemma {:induction false} TurnsAppend(turns: seq<Turn>, id: Id, t: Turn)
    requires TurnsOk(turns) && TurnsNumbered(turns, id) && DistinctTurnIds(turns) && DistinctKeys(turns)
    requires AllTimesMatch(turns) && TurnOk(t) && TimesMatch(t)
    requires t.conversationId == id && t.sequence == |turns| + 1 && !KeyTaken(turns, t.key)
    requires forall k :: 0 <= k < |turns| ==> turns[k].id != t.id
    ensures var ts := turns + [t];
            TurnsOk(ts) && TurnsNumbered(ts, id) && DistinctTurnIds(ts) && DistinctKeys(ts) && AllTimesMatch(ts)
  {
  }

  lemma {:induction false} MessagesAppend(messages: seq<Message>, id: Id, m: Message)
    requires MessagesNumbered(messages, id) && DistinctMessageIds(messages)
    requires m.conversationId == id && m.sequence == |messages| + 1
    requires forall j :: 0 <= j < |messages| ==> messages[j].id != m.id
    ensures var ms := messages + [m];
            MessagesNumbered(ms, id) && DistinctMessageIds(ms) && Holds(ms, m)
  {
  }

  lemma {:induction false} TimesAppend(turns: seq<Turn>, messages: seq<Message>, m: Message, at: Time)
    requires TimesOrdered(messages) && NothingAfter(turns, messages, at) && m.createdAt == at
    ensures TimesOrdered(messages + [m])
  {
  }

  lemma {:induction false} HeldAppend(turns: seq<Turn>, messages: seq<Message>, m: Message)
    requires AllHeld(turns, messages)
    ensures AllHeld(turns, messages + [m])
  {
    var ms := messages + [m];
    forall i | 0 <= i < |turns|
      ensures Holds(ms, turns[i].user)
      ensures turns[i].assistant.Some? ==> Holds(ms, turns[i].assistant.value)
    {
      assert Holds(messages, turns[i].user);
    }
  }

  /** The turns may gain owners, never lose one. */
  lemma {:induction false} OwnedUpdate(turns: seq<Turn>, messages: seq<Message>, i: nat, t': Turn)
    requires AllOwned(turns, messages) && i < |turns| && Closes(turns[i], t') && turns[i].assistant == None
    ensures AllOwned(turns[i := t'], messages)
  {
    var ts := turns[i := t'];
    forall j | 0 <= j < |messages|
      ensures HasOwner(ts, messages[j])
    {
      assert HasOwner(turns, messages[j]);
      var k :| 0 <= k < |turns| && OwnsMessage(turns[k], messages[j]);
      assert OwnsMessage(ts[k], messages[j]);
    }
  }

  lemma {:induction false} OwnedAppend(turns: seq<Turn>, messages: seq<Message>, t: Turn)
    requires AllOwned(turns, messages)
    ensures AllOwned(turns + [t], messages)
  {
    var ts := turns + [t];
    forall j | 0 <= j < |messages|
      ensures HasOwner(ts, messages[j])
    {
      assert HasOwner(turns, messages[j]);
      var k :| 0 <= k < |turns| && OwnsMessage(turns[k], messages[j]);
      assert OwnsMessage(ts[k], messages[j]);
    }
  }

  lemma {:induction false} OwnedMessageAppend(turns: seq<Turn>, messages: seq<Message>, m: Message, i: nat)
    requires AllOwned(turns, messages) && i < |turns| && OwnsMessage(turns[i], m)
    ensures AllOwned(turns, messages + [m])
  {
    var ms := messages + [m];
    forall j | 0 <= j < |ms|
      ensures HasOwner(turns, ms[j])
    {
      if j < |messages| {
        assert HasOwner(turns, messages[j]);
      }
    }
  }

  lemma {:induction false} PendingHasNoAssistant(turns: seq<Turn>, i: nat)
    requires TurnsOk(turns) && i < |turns| && turns[i].status == Pending
    ensures turns[i].assistant == None
  {
  }

  /** Closing one turn without a new message. */
  lemma {:induction false} CloseKeepsInv(c: Conversation, i: nat, t': Turn, at: Time)
    requires Inv(c) && i < |c.turns| && at >= c.updatedAt
    requires Closes(c.turns[i], t') && TurnOk(t') && t'.assistant == None && t'.status != Completed
    requires t'.updatedAt == at
    ensures Inv(c.(turns := c.turns[i := t'], updatedAt := at))
  {
    assert TimesMatch(c.turns[i]);
    TurnsUpdate(c.turns, c.id, i, t');
    PendingHasNoAssistant(c.turns, i);
    OwnedUpdate(c.turns, c.messages, i, t');
    CountUpdate(c.turns, i, t');
    var ts := c.turns[i := t'];
    assert AllHeld(ts, c.messages);
    assert NothingAfter(ts, c.messages, at);
  }

  lemma {:induction false} StartKeepsInv(c: Conversation, t: Turn, at: Time)
    requires Inv(c) && at >= c.updatedAt && c.status == Active
    requires TurnOk(t) && t.status == Pending && t.conversationId == c.id && t.sequence == c.nextTurn
    requires t.createdAt == t.updatedAt == t.user.createdAt == at && t.user.sequence == c.nextMessage
    requires forall i :: 0 <= i < |c.turns| ==> c.turns[i].id != t.id
    requires forall j :: 0 <= j < |c.messages| ==> c.messages[j].id != t.user.id
    requires !KeyTaken(c.turns, t.key)
    ensures Inv(c.(turns := c.turns + [t], messages := c.messages + [t.user], nextTurn := c.nextTurn + 1,
                   nextMessage := c.nextMessage + 1, updatedAt := at))
  {
    var ts := c.turns + [t];
    var ms := c.messages + [t.user];
    assert TimesMatch(t) && t.assistant == None;
    TurnsAppend(c.turns, c.id, t);
    MessagesAppend(c.messages, c.id, t.user);
    TimesAppend(c.turns, c.messages, t.user, at);
    HeldAppend(c.turns, c.messages, t.user);
    OwnedAppend(c.turns, c.messages, t);
    assert ts[|c.turns|] == t;
    OwnedMessageAppend(ts, c.messages, t.user, |c.turns|);
    assert AllHeld(ts, ms);
    assert NothingAfter(ts, ms, at);
    assert ts[..|ts| - 1] == c.turns;
  }

  lemma {:induction false} HeldUpdate(turns: seq<Turn>, messages: seq<Message>, i: nat, t': Turn, m: Message)
    requires AllHeld(turns, messages) && i < |turns| && Closes(turns[i], t')
    requires t'.assistant == Some(m) && m.sequence == |messages| + 1
    ensures AllHeld(turns[i := t'], messages + [m])
  {
    HeldAppend(turns, messages, m);
    var ts, ms := turns[i := t'], messages + [m];
    assert Holds(ms, m);
    assert Holds(ms, turns[i].user);
    forall k | 0 <= k < |ts|
      ensures Holds(ms, ts[k].user)
      ensures ts[k].assistant.Some? ==> Holds(ms, ts[k].assistant.value)
    {
      if k != i {
        assert Holds(ms, turns[k].user);
      }
    }
  }

  lemma {:induction false} OwnedComplete(turns: seq<Turn>, messages: seq<Message>, i: nat, t': Turn, m: Message)
    requires AllOwned(turns, messages) && i < |turns| && Closes(turns[i], t') && turns[i].assistant == None
    requires t'.assistant == Some(m)
    ensures AllOwned(turns[i := t'], messages + [m])
  {
    OwnedUpdate(turns, messages, i, t');
    OwnedMessageAppend(turns[i := t'], messages, m, i);
  }

  lemma {:induction false} CompleteKeepsInv(c: Conversation, i: nat, t': Turn, at: Time)
    requires Inv(c) && i < |c.turns| && at >= c.updatedAt && c.status == Active
    requires Closes(c.turns[i], t') && TurnOk(t') && t'.status == Completed && t'.updatedAt == at
    requires t'.assistant.value.sequence == c.nextMessage && t'.assistant.value.createdAt == at
    requires forall j :: 0 <= j < |c.messages| ==> c.messages[j].id != t'.assistant.value.id
    ensures Inv(c.(turns := c.turns[i := t'], messages := c.messages + [t'.assistant.value],
                   nextMessage := c.nextMessage + 1, updatedAt := at))
  {
    var m := t'.assistant.value;
    var ts := c.turns[i := t'];
    var ms := c.messages + [m];
    assert TimesMatch(c.turns[i]);
    assert m.conversationId == c.turns[i].conversationId == c.id;
    TurnsUpdate(c.turns, c.id, i, t');
    MessagesAppend(c.messages, c.id, m);
    TimesAppend(c.turns, c.messages, m, at);
    PendingHasNoAssistant(c.turns, i);
    HeldUpdate(c.turns, c.messages, i, t', m);
    OwnedComplete(c.turns, c.messages, i, t', m);
    CountUpdate(c.turns, i, t');
    assert NothingAfter(ts, ms, at);
  }

  // ---------------------------------------------------------------------------------------------------------
  // One state and a later one.

  predicate TurnEvolves(t: Turn, t': Turn) {
    t' == t || Closes(t, t')
  }

  /** Turns and messages are only appended; a turn changes at most once, when it leaves pending; archiving is final
      and stops new turns and messages. */
  predicate Evolves(c: Conversation, c': Conversation) {
    && c'.id == c.id && c'.title == c.title && c'.createdAt == c.createdAt && c.updatedAt <= c'.updatedAt
    && c.messages <= c'.messages
    && |c.turns| <= |c'.turns|
    && (forall i :: 0 <= i < |c.turns| ==> TurnEvolves(c.turns[i], c'.turns[i]))
    && (c.status == Archived ==>
          c'.status == Archived && c'.archivedAt == c.archivedAt && c'.messages == c.messages &&
          |c'.turns| == |c.turns|)
  }

  lemma {:induction false} EvolvesTransitive(a: Conversation, b: Conversation, c: Conversation)
    requires Evolves(a, b) && Evolves(b, c)
    ensures Evolves(a, c)
  {
    forall i | 0 <= i < |a.turns|
      ensures TurnEvolves(a.turns[i], c.turns[i])
    {
      assert TurnEvolves(a.turns[i], b.turns[i]) && TurnEvolves(b.turns[i], c.turns[i]);
    }
  }

  lemma {:induction false} StartApplies(c: Conversation, cmd: Command)
    requires Inv(c) && DrawsNewIds(c, cmd) && cmd.Start? && Apply(c, cmd).Ok?
    ensures Inv(Apply(c, cmd).value) && Evolves(c, Apply(c, cmd).value)
  {
    var user := NewMessage(cmd.messageId, c.id, cmd.turnId, User, cmd.content, c.nextMessage, cmd.at).value;
    NewTurnOk(cmd.turnId, c.id, c.nextTurn, user, cmd.requestId, cmd.key, cmd.at);
    StartKeepsInv(c, NewTurn(cmd.turnId, c.id, c.nextTurn, user, cmd.requestId, cmd.key, cmd.at).value, cmd.at);
  }

  /** Turn i closes and a message may be appended: the aggregate evolves. */
  lemma {:induction false} CloseEvolves(c: Conversation, c': Conversation, i: nat, t': Turn)
    requires i < |c.turns| && Closes(c.turns[i], t') && c'.turns == c.turns[i := t'] && c.messages <= c'.messages
    requires c'.id == c.id && c'.title == c.title && c'.createdAt == c.createdAt && c.updatedAt <= c'.updatedAt
    requires c'.status == c.status && c'.archivedAt == c.archivedAt
    requires c.status == Archived ==> c'.messages == c.messages
    ensures Evolves(c, c')
  {
  }

  lemma {:induction false} CompleteApplies(c: Conversation, cmd: Command)
    requires Inv(c) && DrawsNewIds(c, cmd) && cmd.Complete? && Apply(c, cmd).Ok?
    ensures Inv(Apply(c, cmd).value) && Evolves(c, Apply(c, cmd).value)
  {
    var i := FindTurn(c.turns, cmd.turnId).value;
    var m := NewMessage(cmd.messageId, c.id, cmd.turnId, Assistant, cmd.content, c.nextMessage, cmd.at).value;
    assert TurnOk(c.turns[i]);
    CompleteOneOk(c.turns[i], m, cmd.provider, cmd.model, cmd.finish, cmd.usage, cmd.at);
    var t' := CompleteOne(c.turns[i], m, cmd.provider, cmd.model, cmd.finish, cmd.usage, cmd.at).value;
    CompleteKeepsInv(c, i, t', cmd.at);
    CloseEvolves(c, Apply(c, cmd).value, i, t');
  }

  lemma {:induction false} FailApplies(c: Conversation, cmd: Command)
    requires Inv(c) && cmd.Fail? && Apply(c, cmd).Ok?
    ensures Inv(Apply(c, cmd).value) && Evolves(c, Apply(c, cmd).value)
  {
    var i := FindTurn(c.turns, cmd.turnId).value;
    assert TurnOk(c.turns[i]);
    FailOneOk(c.turns[i], cmd.errorCode, cmd.provider, cmd.model, cmd.at);
    var t' := FailOne(c.turns[i], cmd.errorCode, cmd.provider, cmd.model, cmd.at).value;
    CloseKeepsInv(c, i, t', cmd.at);
    CloseEvolves(c, Apply(c, cmd).value, i, t');
  }

  lemma {:induction false} CancelApplies(c: Conversation, cmd: Command)
    requires Inv(c) && cmd.Cancel? && Apply(c, cmd).Ok?
    ensures Inv(Apply(c, cmd).value) && Evolves(c, Apply(c, cmd).value)
  {
    var i := FindTurn(c.turns, cmd.turnId).value;
    assert TurnOk(c.turns[i]);
    CancelOneOk(c.turns[i], cmd.at);
    var t' := CancelOne(c.turns[i], cmd.at).value;
    CloseKeepsInv(c, i, t', cmd.at);
    CloseEvolves(c, Apply(c, cmd).value, i, t');
  }

  /** Every operation keeps the invariant and only lets the aggregate evolve. */
  lemma {:induction false} ApplyKeepsInv(c: Conversation, cmd: Command)
    requires Inv(c) && DrawsNewIds(c, cmd) && Apply(c, cmd).Ok?
    ensures Inv(Apply(c, cmd).value) && Evolves(c, Apply(c, cmd).value)
  {
    match cmd
    case ArchiveAt(_) =>
    case Start(_, _, _, _, _, _) => StartApplies(c, cmd);
    case Complete(_, _, _, _, _, _, _, _) => CompleteApplies(c, cmd);
    case Fail(_, _, _, _, _) => FailApplies(c, cmd);
    case Cancel(_, _) => CancelApplies(c, cmd);
  }

  lemma {:induction false} RunKeepsInvFrom(c: Conversation, cmds: seq<Command>)
    requires Inv(c) && DrawsNewIdsInRun(c, cmds)
    ensures Inv(Run(c, cmds)) && Evolves(c, Run(c, cmds))
    decreases |cmds|
  {
    if cmds != [] {
      var r := Apply(c, cmds[0]);
      if r.Ok? {
        ApplyKeepsInv(c, cmds[0]);
        RunKeepsInvFrom(r.value, cmds[1..]);
        EvolvesTransitive(c, r.value, Run(c, cmds));
      } else {
        RunKeepsInvFrom(c, cmds[1..]);
      }
    }
  }

  /** Main result: every run from a new conversation, raising calls included, satisfies the invariant. */
  lemma {:induction false} RunKeepsInv(id: Id, title: Option<string>, at: Time, cmds: seq<Command>)
    requires NewConversation(id, title, at).Ok?
    requires DrawsNewIdsInRun(NewConversation(id, title, at).value, cmds)
    ensures Inv(Run(NewConversation(id, title, at).value, cmds))
  {
    OptionalFieldNormal(title, 200);
    RunKeepsInvFrom(NewConversation(id, title, at).value, cmds);
  }

  /** Each message is owned by one turn only. */
  lemma {:induction false} OwnerIsUnique(c: Conversation, i: nat, k: nat, m: Message)
    requires Shape(c) && i < |c.turns| && k < |c.turns|
    requires OwnsMessage(c.turns[i], m) && OwnsMessage(c.turns[k], m)
    ensures i == k
  {
  }
}
