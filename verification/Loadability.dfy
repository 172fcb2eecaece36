/** Which operations make a stored conversation impossible to load. */
module Loadability {
  import opened Prelude
  import opened Text
  import opened Aggregate
  import opened AggregateInvariant
  import opened RoundTrip

  /** fail_turn and cancel_turn do not look at the conversation's status. */
  predicate LateClose(c: Conversation, cmd: Command) {
    (cmd.Fail? || cmd.Cancel?) && c.status == Archived && cmd.at > c.updatedAt
  }

  /** Main result: an operation on a loadable conversation leaves it loadable unless it is exactly a failure or a
      cancellation after archiving, at a strictly later time. */
  lemma {:induction false} LoadableAfter(c: Conversation, cmd: Command)
    requires Inv(c) && Loadable(c) && Apply(c, cmd).Ok?
    ensures Loadable(Apply(c, cmd).value) <==> !LateClose(c, cmd)
    ensures Loadable(Norm(Apply(c, cmd).value)) <==> Loadable(Apply(c, cmd).value)
  {
  }

  /** Such a run exists: one turn is started, the conversation is archived, the turn fails a second later. */
  lemma {:induction false} LateFailureUnloads()
    ensures var cmds := [Start(1, 2, "hi", None, None, 1), ArchiveAt(2), Fail(1, Some("e"), None, None, 3)];
            var c := Run(NewConversation(0, None, 0).value, cmds);
            NewConversation(0, None, 0).Ok? && DrawsNewIdsInRun(NewConversation(0, None, 0).value, cmds) &&
            c.status == Archived && c.archivedAt == Some(2) && c.updatedAt == 3 && !Loadable(c)
  {
    var c0 := NewConversation(0, None, 0).value;
    var start := Start(1, 2, "hi", None, None, 1);
    var fail := Fail(1, Some("e"), None, None, 3);
    assert !Blank("hi") && OptionalField(Some("e"), 128) == Ok(Some("e")) by {
      assert !IsSpace('h') && !IsSpace('i') && !IsSpace('e');
    }
    var c1 := Apply(c0, start).value;
    assert Apply(c0, start).Ok?;
    var c2 := Apply(c1, ArchiveAt(2)).value;
    assert Apply(c1, ArchiveAt(2)).Ok?;
    var c3 := Apply(c2, fail).value;
    assert FindTurn(c2.turns, 1) == Some(0);
    assert Apply(c2, fail).Ok?;
    var cmds := [start, ArchiveAt(2), fail];
    assert cmds[1..] == [ArchiveAt(2), fail] && cmds[1..][1..] == [fail] && [fail][1..] == [];
    assert Run(c3, []) == c3 && Run(c2, [fail]) == Run(c3, []);
    assert Run(c1, [ArchiveAt(2), fail]) == Run(c2, [fail]);
    assert DrawsNewIdsInRun(c3, []) && DrawsNewIdsInRun(c2, [fail]) && DrawsNewIdsInRun(c1, [ArchiveAt(2), fail]);
  }
}
