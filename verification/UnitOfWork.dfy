/** repositories/unit_of_work.py: one session, its commit boundary, and what every sequence of calls leaves in the
    store. */
module UnitOfWork {
  import opened Prelude
  import opened Store

  /** How often the unit of work committed and rolled back its current session. */
  datatype Tally = Tally(commits: nat, rollbacks: nat)

  /** An entered unit of work: rows written so far and not committed, the finished flag, the session's tally. */
  datatype Open = Open(pending: seq<Write>, finished: bool, tally: Tally)

  datatype Call = Enter | Stage(write: Write) | Commit | Rollback | Exit(failed: bool)

  /** Store and unit of work. */
  datatype UowState = UowState(stored: Tables, open: Option<Open>)

  function CommitOpen(s: UowState): UowState
    requires s.open.Some? && !s.open.value.finished
  {
    var o := s.open.value;
    UowState(ApplyAll(s.stored, o.pending), Some(Open([], true, o.tally.(commits := o.tally.commits + 1))))
  }

  function RollbackOpen(s: UowState): UowState
    requires s.open.Some?
  {
    var o := s.open.value;
    if o.finished then s
    else s.(open := Some(Open([], true, o.tally.(rollbacks := o.tally.rollbacks + 1))))
  }

  /** One call; the flag is false where the source raises RuntimeError, which changes nothing. */
  function Step(s: UowState, call: Call): (UowState, bool) {
    match call
    case Enter => if s.open.Some? then (s, false) else (s.(open := Some(Open([], false, Tally(0, 0)))), true)
    case Stage(w) =>
      if s.open == None then (s, false)
      else (s.(open := Some(s.open.value.(pending := s.open.value.pending + [w]))), true)
    case Commit => if s.open == None || s.open.value.finished then (s, false) else (CommitOpen(s), true)
    case Rollback => if s.open == None then (s, false) else (RollbackOpen(s), true)
    case Exit(failed) => (s.(open := None), true)
  }

  /** The tally the session has when the context is left. */
  function FinalTally(s: UowState, failed: bool): Tally
    requires s.open.Some?
  {
    if failed || !s.open.value.finished then RollbackOpen(s).open.value.tally else s.open.value.tally
  }

  class Database {
    var tables: Tables

    constructor ()
      ensures tables == EMPTY
    {
      tables := EMPTY;
    }
  }

  class Session {
    const database: Database
    var pending: seq<Write>
    var tally: Tally

    constructor (database: Database)
      ensures this.database == database && pending == [] && tally == Tally(0, 0)
    {
      this.database, pending, tally := database, [], Tally(0, 0);
    }

    /** What the session's own queries see. */
    function View(): Tables
      reads this, database
    {
      ApplyAll(database.tables, pending)
    }

    /** Flush one row. */
    method Put(w: Write)
      modifies this
      ensures pending == old(pending) + [w] && tally == old(tally)
      ensures View() == ApplyWrite(old(View()), w)
    {
      ApplyAllSnoc(database.tables, pending, w);
      pending := pending + [w];
    }

    method Commit()
      modifies this, database
      ensures database.tables == old(View()) && pending == []
      ensures tally == old(tally).(commits := old(tally).commits + 1)
    {
      database.tables := ApplyAll(database.tables, pending);
      pending := [];
      tally := tally.(commits := tally.commits + 1);
    }

    method Rollback()
      modifies this
      ensures pending == [] && tally == old(tally).(rollbacks := old(tally).rollbacks + 1)
    {
      pending := [];
      tally := tally.(rollbacks := tally.rollbacks + 1);
    }
  }

  class SqlAlchemyUnitOfWork {
    const database: Database
    var session: Session?
    var finished: bool

    ghost predicate Valid()
      reads this
    {
      (session != null ==> session.database == database) && (session == null ==> !finished)
    }

    function Value(): UowState
      reads this, database, session
    {
      UowState(database.tables,
               if session == null then None else Some(Open(session.pending, finished, session.tally)))
    }

    constructor (database: Database)
      ensures Valid() && this.database == database && session == null
    {
      this.database, session, finished := database, null, false;
    }

    method Enter() returns (ok: bool)
      requires Valid()
      modifies this
      ensures Valid() && (Value(), ok) == Step(old(Value()), Call.Enter)
      ensures if ok then session != null && fresh(session) else session == old(session)
    {
      if session != null {
        return false;
      }
      session := new Session(database);
      finished := false;
      return true;
    }

    method Commit() returns (ok: bool)
      requires Valid()
      modifies this, session, database
      ensures Valid() && session == old(session)
      ensures (Value(), ok) == Step(old(Value()), Call.Commit)
    {
      if session == null || finished {
        return false;
      }
      session.Commit();
      finished := true;
      return true;
    }

    method Rollback() returns (ok: bool)
      requires Valid()
      modifies this, session
      ensures Valid() && session == old(session)
      ensures (Value(), ok) == Step(old(Value()), Call.Rollback)
    {
      if session == null {
        return false;
      }
      if !finished {
        session.Rollback();
      }
      finished := true;
      return true;
    }

    /** __aexit__: the session that is left has been committed or rolled back as FinalTally says. */
    method Exit(failed: bool)
      requires Valid()
      modifies this, session
      ensures Valid() && session == null
      ensures Value() == Step(old(Value()), Call.Exit(failed)).0
      ensures old(session) != null ==> old(session).tally == FinalTally(old(Value()), failed)
    {
      if session != null && (failed || !finished) {
        var _ := Rollback();
      }
      session := null;
      finished := false;
    }
  }

  // ---------------------------------------------------------------------------------------------------------
  // Every sequence of calls.

  /** A context that was entered and left: the store at entry, the rows flushed before it was finished, and the
      tally and store at exit. */
  datatype Closed = Closed(entered: Tables, flushed: seq<Write>, tally: Tally, left: Tables)

  /** A run with the history of its contexts. `flushed` collects rows until the context is finished. */
  datatype Run = Run(state: UowState, entered: Tables, flushed: seq<Write>, closed: seq<Closed>)

  function Advance(r: Run, call: Call): Run {
    var (state, ok) := Step(r.state, call);
    match call
    case Enter => if ok then Run(state, r.state.stored, [], r.closed) else r
    case Stage(w) =>
      r.(state := state, flushed := if ok && !r.state.open.value.finished then r.flushed + [w] else r.flushed)
    case Exit(failed) =>
      if r.state.open == None then r.(state := state)
      else
        var closed := Closed(r.entered, r.flushed, FinalTally(r.state, failed), state.stored);
        Run(state, r.entered, [], r.closed + [closed])
    case _ => r.(state := state)
  }

  function RunAll(r: Run, calls: seq<Call>): Run
    decreases |calls|
  {
    if calls == [] then r else RunAll(Advance(r, calls[0]), calls[1..])
  }

  /** Exactly one of commit and rollback: after a commit the store holds every flushed row, after a rollback it is as
      it was at entry. */
  predicate AllOrNothing(c: Closed) {
    (c.tally == Tally(1, 0) && c.left == ApplyAll(c.entered, c.flushed)) ||
    (c.tally == Tally(0, 1) && c.left == c.entered)
  }

  predicate RunOk(r: Run) {
    && (r.state.open.Some? ==>
          var o := r.state.open.value;
          if !o.finished then o.tally == Tally(0, 0) && r.state.stored == r.entered && o.pending == r.flushed
          else (o.tally == Tally(1, 0) && r.state.stored == ApplyAll(r.entered, r.flushed)) ||
               (o.tally == Tally(0, 1) && r.state.stored == r.entered))
    && forall i :: 0 <= i < |r.closed| ==> AllOrNothing(r.closed[i])
  }

  lemma {:induction false} AdvanceKeepsOk(r: Run, call: Call)
    requires RunOk(r)
    ensures RunOk(Advance(r, call))
  {
  }

  lemma {:induction false} RunKeepsOk(r: Run, calls: seq<Call>)
    requires RunOk(r)
    ensures RunOk(RunAll(r, calls))
    decreases |calls|
  {
    if calls != [] {
      AdvanceKeepsOk(r, calls[0]);
      RunKeepsOk(Advance(r, calls[0]), calls[1..]);
    }
  }

  /** Main result: over every sequence of calls, each context that was entered and left ends in exactly one of
      commit and rollback, and leaves all of its rows or none. */
  lemma EveryContextAllOrNothing(stored: Tables, calls: seq<Call>)
    ensures var r := RunAll(Run(UowState(stored, None), stored, [], []), calls);
            forall i :: 0 <= i < |r.closed| ==> AllOrNothing(r.closed[i])
  {
    RunKeepsOk(Run(UowState(stored, None), stored, [], []), calls);
  }

  /** Leaving a context never changes the store. Without a commit before, whether left by an error or not, the session
      is rolled back and the store is as it was at entry; after a commit it is not rolled back any more. */
  lemma ExitKeepsStore(stored: Tables, calls: seq<Call>, failed: bool)
    requires RunAll(Run(UowState(stored, None), stored, [], []), calls).state.open.Some?
    ensures var r := RunAll(Run(UowState(stored, None), stored, [], []), calls);
            var committed := r.state.open.value.tally.commits > 0;
            Step(r.state, Exit(failed)).0.stored == r.state.stored &&
            FinalTally(r.state, failed) == (if committed then Tally(1, 0) else Tally(0, 1)) &&
            (!committed ==> r.state.stored == r.entered)
  {
    RunKeepsOk(Run(UowState(stored, None), stored, [], []), calls);
  }
}
