/** list_messages and a reader that follows its cursor while others write. */
module Paging {
  import opened Prelude
  import opened Aggregate
  import opened AggregateInvariant
  import opened Mappers
  import opened Permutations
  import opened RoundTrip
  import opened LoaderSoundness
  import opened Store
  import opened Transactions
  import opened Representation
  import opened History
  import opened Protocol
  import opened ProtocolInvariant
  import opened ProtocolSafety

  datatype PageError = NoConversation | NotLoaded(error: Error) | BadLimit | BadCursor | BadRow(error: Error)

  datatype Page = Page(items: seq<Message>, after: Option<int>, limit: int, next: Option<int>)

  function FirstK<T>(s: seq<T>, k: nat): seq<T> {
    if |s| <= k then s else s[..k]
  }

  /** WHERE sequence > after. */
  function After(after: Option<int>): MessageRow -> bool {
    (r: MessageRow) => after == None || r.sequence > after.value
  }

  function NextOf(items: seq<Message>): Option<int> {
    if items == [] then None else Some(items[|items| - 1].sequence)
  }

  /** get_by_id on one state of the tables. */
  function GetById(db: Tables, cid: Id, scan: Scan): Option<Result<Conversation, Error>> {
    if cid !in db.conversations then None else Some(Loaded(db, cid, scan))
  }

  /** `found` is what get_by_id gave; it takes no lock, so its statements and the message query may each see a later
      state. `rows` are the conversation's message rows in any order; WHERE, ORDER BY and LIMIT are here. */
  function ListMessages(found: Option<Result<Conversation, Error>>, rows: seq<MessageRow>, after: Option<int>,
                        limit: int)
    : Result<Page, PageError>
  {
    match found
    case None => Err(NoConversation)
    case Some(Err(e)) => Err(NotLoaded(e))
    case Some(Ok(_)) =>
      if !(1 <= limit <= 100) then Err(BadLimit)
      else if after.Some? && after.value < 0 then Err(BadCursor)
      else
        match MessagesFromRows(FirstK(SortBy(RowSequence, Filter(After(after), rows)), limit))
        case Err(e) => Err(BadRow(e))
        case Ok(items) => Ok(Page(items, after, limit, NextOf(items)))
  }

  // ---------------------------------------------------------------------------------------------------------
  // One page.

  function AfterMessage(after: Option<int>): Message -> bool {
    (m: Message) => after == None || m.sequence > after.value
  }

  /** How many messages a cursor leaves behind. */
  function Skipped(after: Option<int>, n: nat): nat {
    if after == None || after.value < 0 then 0 else if after.value <= n then after.value else n
  }

  lemma {:induction false} FilterAll<T>(keep: T -> bool, s: seq<T>)
    requires forall i :: 0 <= i < |s| ==> keep(s[i])
    ensures Filter(keep, s) == s
  {
    if s != [] {
      FilterAll(keep, s[1..]);
      assert s == [s[0]] + s[1..];
    }
  }

  lemma {:induction false} AfterIsSuffix(messages: seq<Message>, id: Id, after: Option<int>)
    requires MessagesNumbered(messages, id)
    ensures Filter(AfterMessage(after), messages) == messages[Skipped(after, |messages|)..]
  {
    var n := Skipped(after, |messages|);
    assert messages == messages[..n] + messages[n..];
    FilterAppend(AfterMessage(after), messages[..n], messages[n..]);
    FilterNone(AfterMessage(after), messages[..n]);
    FilterAll(AfterMessage(after), messages[n..]);
  }

  lemma {:induction false} RowsCons(m: Message, rest: seq<Message>)
    ensures MessageRows([m] + rest) == [MessageToRow(m)] + MessageRows(rest)
  {
  }

  lemma {:induction false} FilterRows(messages: seq<Message>, after: Option<int>)
    ensures Filter(After(after), MessageRows(messages)) == MessageRows(Filter(AfterMessage(after), messages))
  {
    if messages != [] {
      FilterRows(messages[1..], after);
      assert messages == [messages[0]] + messages[1..];
      RowsCons(messages[0], messages[1..]);
      RowsCons(messages[0], Filter(AfterMessage(after), messages[1..]));
      FilterCons(After(after), MessageToRow(messages[0]), MessageRows(messages[1..]));
      FilterCons(AfterMessage(after), messages[0], messages[1..]);
    }
  }

  lemma {:induction false} FilterCons<T>(keep: T -> bool, x: T, rest: seq<T>)
    ensures Filter(keep, [x] + rest) == if keep(x) then [x] + Filter(keep, rest) else Filter(keep, rest)
  {
    assert ([x] + rest)[1..] == rest && [] + Filter(keep, rest) == Filter(keep, rest);
  }

  lemma {:induction false} FirstRows(messages: seq<Message>, k: nat)
    ensures FirstK(MessageRows(messages), k) == MessageRows(FirstK(messages, k))
  {
  }

  lemma {:induction false} SuffixSorted(messages: seq<Message>, id: Id, n: nat)
    requires MessagesNumbered(messages, id) && n <= |messages|
    ensures StrictlySorted(RowSequence, MessageRows(messages[n..]))
  {
  }

  /** The rows behind the cursor, sorted, are the slice of the message list behind the cursor. */
  lemma {:induction false} SortedIsSlice(messages: seq<Message>, id: Id, rows: seq<MessageRow>, after: Option<int>)
    requires MessagesNumbered(messages, id) && multiset(rows) == multiset(MessageRows(messages))
    ensures SortBy(RowSequence, Filter(After(after), rows)) == MessageRows(messages[Skipped(after, |messages|)..])
  {
    var n := Skipped(after, |messages|);
    FilterPermutes(After(after), rows, MessageRows(messages));
    FilterRows(messages, after);
    AfterIsSuffix(messages, id, after);
    SuffixSorted(messages, id, n);
    SortByRestores(RowSequence, Filter(After(after), rows), MessageRows(messages[n..]));
  }

  lemma {:induction false} SliceLoads(c: Conversation, n: nat, limit: nat)
    requires Shape(c) && n <= |c.messages|
    ensures MessagesFromRows(MessageRows(FirstK(c.messages[n..], limit))) == Ok(FirstK(c.messages[n..], limit))
  {
    var items := FirstK(c.messages[n..], limit);
    forall j | 0 <= j < |items|
      ensures ValidMessage(items[j])
    {
      MessagesAreValid(c, n + j);
    }
    MessagesInOrderLoad(items);
  }

  lemma {:induction false} RowsOfPage(c: Conversation, rows: seq<MessageRow>, after: Option<int>, limit: nat)
    requires Shape(c) && multiset(rows) == multiset(MessageRows(c.messages))
    ensures MessagesFromRows(FirstK(SortBy(RowSequence, Filter(After(after), rows)), limit)) ==
            Ok(FirstK(c.messages[Skipped(after, |c.messages|)..], limit))
  {
    var n := Skipped(after, |c.messages|);
    SortedIsSlice(c.messages, c.id, rows, after);
    FirstRows(c.messages[n..], limit);
    SliceLoads(c, n, limit);
  }

  lemma {:induction false} MessageRowsAreOrder(db: Tables, aggs: Aggregates, cid: Id, rows: seq<MessageRow>)
    requires AggregatesOk(aggs) && Represents(db, aggs) && cid in aggs && SelectsMessages(db, cid, rows)
    ensures multiset(rows) == multiset(MessageRows(aggs[cid].messages)) && Shape(aggs[cid])
  {
    assert AggregateOk(aggs, cid);
    MessageRowsDistinct(aggs[cid].messages);
    forall row: MessageRow
      ensures row in rows <==> row in MessageRows(aggs[cid].messages)
    {
      MessageSelected(db, aggs, cid, rows, row);
    }
    DistinctSameMembers(MessageRowId, rows, MessageRows(aggs[cid].messages));
  }

  /** What a page call answers, in terms of the aggregate the message query sees. */
  lemma {:induction false} PageOf(db: Tables, aggs: Aggregates, cid: Id, found: Option<Result<Conversation, Error>>,
                                  rows: seq<MessageRow>, after: Option<int>, limit: int)
    requires AggregatesOk(aggs) && Represents(db, aggs) && cid in aggs && SelectsMessages(db, cid, rows)
    ensures var messages := aggs[cid].messages;
            ListMessages(found, rows, after, limit) ==
            if found == None then Err(NoConversation)
            else if found.value.Err? then Err(NotLoaded(found.value.error))
            else if !(1 <= limit <= 100) then Err(BadLimit)
            else if after.Some? && after.value < 0 then Err(BadCursor)
            else
              var items := FirstK(messages[Skipped(after, |messages|)..], limit);
              Ok(Page(items, after, limit, NextOf(items)))
  {
    MessageRowsAreOrder(db, aggs, cid, rows);
    if 1 <= limit {
      RowsOfPage(aggs[cid], rows, after, limit);
    }
  }

  /** Without a commit in between, the conversation is found exactly when it is stored, and loads exactly when it is
      loadable. */
  lemma {:induction false} FoundOf(db: Tables, aggs: Aggregates, cid: Id, scan: Scan)
    requires AggregatesOk(aggs) && Represents(db, aggs) && (cid in aggs ==> Scans(db, cid, scan))
    ensures GetById(db, cid, scan) ==
            if cid !in aggs then None
            else Some(if Loadable(aggs[cid]) then Ok(aggs[cid]) else Err(InvalidValue))
  {
    if cid in aggs {
      assert AggregateOk(aggs, cid);
      LoadRepresented(db, aggs, cid, scan);
    }
  }

  // ---------------------------------------------------------------------------------------------------------
  // A reader among writers.

  /** What has been read, the cursor of the next call, and whether a page came back empty. */
  datatype Reader = Reader(read: seq<Message>, cursor: Option<int>, finished: bool)

  const NEW_READER := Reader([], None, false)

  /** Steps of others, then one page call; `found` is arbitrary, since others may commit while get_by_id reads. */
  datatype Visit = Visit(
    others: seq<Action>,
    found: Option<Result<Conversation, Error>>,
    rows: seq<MessageRow>,
    limit: int)

  function Take(r: Reader, page: Result<Page, PageError>): Reader {
    if r.finished || page.Err? then r
    else if page.value.items == [] then r.(finished := true)
    else Reader(r.read + page.value.items, page.value.next, false)
  }

  function ReadOne(r: Reader, v: Visit): Reader {
    Take(r, ListMessages(v.found, v.rows, r.cursor, v.limit))
  }

  predicate VisitsFit(s: State, cid: Id, visits: seq<Visit>)
    decreases |visits|
  {
    visits == [] ||
    (var s' := RunAll(s, visits[0].others);
     SelectsMessages(s'.db, cid, visits[0].rows) && VisitsFit(s', cid, visits[1..]))
  }

  function ReadAll(s: State, cid: Id, r: Reader, visits: seq<Visit>): (State, Reader)
    decreases |visits|
  {
    if visits == [] then (s, r)
    else
      var s' := RunAll(s, visits[0].others);
      ReadAll(s', cid, ReadOne(r, visits[0]), visits[1..])
  }

  /** What was read is a prefix of the messages, and the cursor is its end. */
  predicate ReaderOk(r: Reader, messages: seq<Message>) {
    r.read <= messages && r.cursor == NextOf(r.read)
  }

  lemma {:induction false} CursorSkips(r: Reader, messages: seq<Message>, id: Id)
    requires ReaderOk(r, messages) && MessagesNumbered(messages, id)
    ensures Skipped(r.cursor, |messages|) == |r.read| && !(r.cursor.Some? && r.cursor.value < 0)
  {
    if r.read != [] {
      assert messages[|r.read| - 1] == r.read[|r.read| - 1];
    }
  }

  lemma {:induction false} TakeOk(r: Reader, messages: seq<Message>, limit: nat, page: Page)
    requires ReaderOk(r, messages) && 1 <= limit
    requires page.items == FirstK(messages[|r.read|..], limit) && page.next == NextOf(page.items)
    ensures var r' := Take(r, Ok(page));
            ReaderOk(r', messages) && r.read <= r'.read &&
            (r'.finished && !r.finished ==> r'.read == messages) && (r'.finished || |r.read| < |r'.read|)
  {
    assert r.read + page.items == messages[..|r.read| + |page.items|];
  }

  /** One page: it continues where the last one ended, and an empty page means that everything was read. */
  lemma {:induction false} ReadOneOk(s: State, cid: Id, r: Reader, v: Visit)
    requires Safe(s) && cid in s.aggs && SelectsMessages(s.db, cid, v.rows) && ReaderOk(r, s.aggs[cid].messages)
    ensures var r' := ReadOne(r, v);
            ReaderOk(r', s.aggs[cid].messages) && r.read <= r'.read &&
            (r'.finished && !r.finished ==> r'.read == s.aggs[cid].messages) &&
            (v.found.Some? && v.found.value.Ok? && 1 <= v.limit <= 100 ==> r'.finished || |r.read| < |r'.read|)
  {
    var messages := s.aggs[cid].messages;
    assert AggregateOk(s.aggs, cid);
    PageOf(s.db, s.aggs, cid, v.found, v.rows, r.cursor, v.limit);
    CursorSkips(r, messages, cid);
    var page := ListMessages(v.found, v.rows, r.cursor, v.limit);
    if page.Ok? {
      TakeOk(r, messages, v.limit, page.value);
    }
  }

  lemma {:induction false} ReaderStays(r: Reader, messages: seq<Message>, later: seq<Message>)
    requires ReaderOk(r, messages) && messages <= later
    ensures ReaderOk(r, later)
  {
  }

  lemma {:induction false} MessagesGrow(s: State, actions: seq<Action>, cid: Id)
    requires Safe(s) && cid in s.aggs
    ensures Safe(RunAll(s, actions)) && cid in RunAll(s, actions).aggs
    ensures s.aggs[cid].messages <= RunAll(s, actions).aggs[cid].messages
  {
    RunKeepsSafe(s, actions);
    RunEvolves(s, actions);
    assert cid in RunAll(s, actions).aggs;
    assert Evolves(s.aggs[cid], RunAll(s, actions).aggs[cid]);
  }

  lemma {:induction false} ReadAllOk(s: State, cid: Id, r: Reader, visits: seq<Visit>, start: seq<Message>)
    requires Safe(s) && cid in s.aggs && VisitsFit(s, cid, visits) && ReaderOk(r, s.aggs[cid].messages)
    requires start <= s.aggs[cid].messages && (r.finished ==> start <= r.read)
    ensures var (s', r') := ReadAll(s, cid, r, visits);
            cid in s'.aggs && ReaderOk(r', s'.aggs[cid].messages) && (r'.finished ==> start <= r'.read)
    decreases |visits|
  {
    if visits != [] {
      var s' := RunAll(s, visits[0].others);
      MessagesGrow(s, visits[0].others, cid);
      ReaderStays(r, s.aggs[cid].messages, s'.aggs[cid].messages);
      ReadOneOk(s', cid, r, visits[0]);
      ReadAllOk(s', cid, ReadOne(r, visits[0]), visits[1..], start);
    }
  }

  /** Main result: whatever others do between the pages, what a reader has read from the start is at every moment the
      messages 1..k in order without a gap, and once a page comes back empty it holds every message that was there when
      reading began. */
  lemma {:induction false} PagingIsPrefix(s: State, cid: Id, visits: seq<Visit>)
    requires Reachable(s) && cid in s.aggs && VisitsFit(s, cid, visits)
    ensures var (s', r) := ReadAll(s, cid, NEW_READER, visits);
            cid in s'.aggs && r.read <= s'.aggs[cid].messages &&
            (forall j :: 0 <= j < |r.read| ==> r.read[j].sequence == j + 1) &&
            (r.finished ==> s.aggs[cid].messages <= r.read)
  {
    ReachableIsSafe(s);
    ReadAllOk(s, cid, NEW_READER, visits, s.aggs[cid].messages);
    var (s', r) := ReadAll(s, cid, NEW_READER, visits);
    ReadAllSafe(s, cid, NEW_READER, visits);
    assert AggregateOk(s'.aggs, cid);
  }

  lemma {:induction false} ReadAllSafe(s: State, cid: Id, r: Reader, visits: seq<Visit>)
    requires Safe(s)
    ensures Safe(ReadAll(s, cid, r, visits).0)
    decreases |visits|
  {
    if visits != [] {
      RunKeepsSafe(s, visits[0].others);
      var s' := RunAll(s, visits[0].others);
      ReadAllSafe(s', cid, ReadOne(r, visits[0]), visits[1..]);
    }
  }

  /** Nobody else commits, every call has a valid limit, and the conversation loads. */
  predicate Quiet(c: Conversation, visits: seq<Visit>) {
    forall i :: 0 <= i < |visits| ==>
                  visits[i].others == [] && 1 <= visits[i].limit <= 100 && visits[i].found == Some(Ok(c))
  }

  lemma {:induction false} QuietReads(s: State, cid: Id, r: Reader, visits: seq<Visit>)
    requires Safe(s) && cid in s.aggs && VisitsFit(s, cid, visits)
    requires Quiet(s.aggs[cid], visits)
    requires ReaderOk(r, s.aggs[cid].messages) && (r.finished ==> r.read == s.aggs[cid].messages)
    requires !r.finished ==> |s.aggs[cid].messages| - |r.read| < |visits|
    ensures var r' := ReadAll(s, cid, r, visits).1; r'.finished && r'.read == s.aggs[cid].messages
    decreases |visits|
  {
    if visits != [] {
      assert RunAll(s, []) == s;
      ReadOneOk(s, cid, r, visits[0]);
      QuietReads(s, cid, ReadOne(r, visits[0]), visits[1..]);
    }
  }

  /** Main result: without writers, paging ends after at most one page more than there are messages, having returned
      every message exactly once, in order. */
  lemma {:induction false} QuietPagingIsComplete(s: State, cid: Id, visits: seq<Visit>)
    requires Reachable(s) && cid in s.aggs && VisitsFit(s, cid, visits)
    requires Quiet(s.aggs[cid], visits)
    requires |s.aggs[cid].messages| < |visits|
    ensures ReadAll(s, cid, NEW_READER, visits).1 ==
            Reader(s.aggs[cid].messages, NextOf(s.aggs[cid].messages), true)
  {
    ReachableIsSafe(s);
    QuietReads(s, cid, NEW_READER, visits);
    ReadAllOk(s, cid, NEW_READER, visits, []);
    QuietCursor(s, cid, NEW_READER, visits);
  }

  lemma {:induction false} QuietCursor(s: State, cid: Id, r: Reader, visits: seq<Visit>)
    requires Safe(s) && cid in s.aggs && VisitsFit(s, cid, visits) && ReaderOk(r, s.aggs[cid].messages)
    requires Quiet(s.aggs[cid], visits)
    ensures var r' := ReadAll(s, cid, r, visits).1; r'.cursor == NextOf(r'.read)
    decreases |visits|
  {
    if visits != [] {
      assert RunAll(s, []) == s;
      ReadOneOk(s, cid, r, visits[0]);
      QuietCursor(s, cid, ReadOne(r, visits[0]), visits[1..]);
    }
  }
}
