/** application/conversations/context_builder.py: which part of the history goes to the model. */
module ContextBuilder {
  import opened Prelude
  import opened Aggregate
  import opened Permutations
  import opened LlmSchemas

  datatype BuildError = LimitNotPositive | NotUserMessage | OverBudget | RequestRejected

  function BoundedLimit(maxMessages: nat, requested: int): Result<nat, BuildError> {
    if requested <= 0 then Err(LimitNotPositive)
    else Ok(if requested < maxMessages then requested else maxMessages)
  }

  function Characters(messages: seq<Message>): nat {
    if messages == [] then 0 else |messages[0].content| + Characters(messages[1..])
  }

  /** sorted(history)[-n:] */
  function Candidates(history: seq<Message>, n: nat): seq<Message> {
    LastK(SortBy(MessageSequenceOf, history), n)
  }

  /** Messages taken from the end while they fit. */
  function Select(candidates: seq<Message>, budget: nat): seq<Message> {
    if candidates == [] then []
    else
      var last := candidates[|candidates| - 1];
      if |last.content| > budget then []
      else Select(candidates[..|candidates| - 1], budget - |last.content|) + [last]
  }

  function ToLlmMessage(m: Message): LlmMessage {
    LlmMessage(if m.role == Aggregate.User then LlmSchemas.User else LlmSchemas.Assistant, m.content)
  }

  function ToLlmMessages(messages: seq<Message>): (r: seq<LlmMessage>)
    ensures |r| == |messages|
    ensures forall i :: 0 <= i < |messages| ==> r[i] == ToLlmMessage(messages[i])
  {
    seq(|messages|, i requires 0 <= i < |messages| => ToLlmMessage(messages[i]))
  }

  /** `valid` stands for the request schema's own checks on names and parameters. */
  function Build(maxMessages: nat, maxCharacters: nat, history: seq<Message>, current: Message, correlationId: string,
                 limit: int, model: Option<string>, valid: bool)
    : Result<LlmRequest, BuildError>
  {
    var effective :- BoundedLimit(maxMessages, limit);
    if current.role != Aggregate.User then Err(NotUserMessage)
    else
      var candidates := Candidates(history, effective);
      if |current.content| > maxCharacters then Err(OverBudget)
      else
        var selected := Select(candidates, maxCharacters - |current.content|);
        if !valid then Err(RequestRejected)
        else Ok(LlmRequest(ToLlmMessages(selected) + [ToLlmMessage(current)], model, correlationId))
  }

  class ConversationContextBuilder {
    const maxMessages: nat
    const maxCharacters: nat

    constructor (maxMessages: nat, maxCharacters: nat)
      requires 0 < maxMessages && 0 < maxCharacters
      ensures this.maxMessages == maxMessages && this.maxCharacters == maxCharacters
    {
      this.maxMessages, this.maxCharacters := maxMessages, maxCharacters;
    }

    /** The backwards loop over the candidates. */
    method BuildRequest(history: seq<Message>, current: Message, correlationId: string, limit: int,
                        model: Option<string>, valid: bool)
      returns (r: Result<LlmRequest, BuildError>)
      ensures r == Build(maxMessages, maxCharacters, history, current, correlationId, limit, model, valid)
    {
      if limit <= 0 {
        return Err(LimitNotPositive);
      }
      if current.role != Aggregate.User {
        return Err(NotUserMessage);
      }
      var effective := if limit < maxMessages then limit else maxMessages;
      var candidates := Candidates(history, effective);
      var remaining := maxCharacters - |current.content|;
      if remaining < 0 {
        return Err(OverBudget);
      }
      var selected: seq<Message> := [];
      var rest := candidates;
      assert Select(candidates, remaining) + [] == Select(candidates, remaining);
      while rest != [] && |rest[|rest| - 1].content| <= remaining
        invariant remaining >= 0
        invariant Select(candidates, maxCharacters - |current.content|) == Select(rest, remaining) + selected
        decreases |rest|
      {
        var message := rest[|rest| - 1];
        rest := rest[..|rest| - 1];
        remaining := remaining - |message.content|;
        assert Select(rest, remaining) + [message] + selected == Select(rest, remaining) + ([message] + selected);
        selected := [message] + selected;
      }
      assert [] + selected == selected;
      if !valid {
        return Err(RequestRejected);
      }
      return Ok(LlmRequest(ToLlmMessages(selected) + [ToLlmMessage(current)], model, correlationId));
    }
  }

  // ---------------------------------------------------------------------------------------------------------

  lemma {:induction false} CharactersSnoc(messages: seq<Message>, last: Message)
    ensures Characters(messages + [last]) == Characters(messages) + |last.content|
  {
    if messages == [] {
      assert messages + [last] == [last] && [last][1..] == [];
    } else {
      CharactersSnoc(messages[1..], last);
      assert (messages + [last])[1..] == messages[1..] + [last];
    }
  }

  lemma {:induction false} SelectIsSuffix(candidates: seq<Message>, budget: nat)
    ensures var n := |Select(candidates, budget)|;
            n <= |candidates| && Select(candidates, budget) == candidates[|candidates| - n..]
  {
    if candidates != [] {
      var m := |candidates| - 1;
      var last := candidates[m];
      if |last.content| <= budget {
        SelectIsSuffix(candidates[..m], budget - |last.content|);
      }
    }
  }

  /** Main result: a suffix of the candidates fits the budget exactly when it is no longer than what is selected. */
  lemma {:induction false} SelectIsLongest(candidates: seq<Message>, budget: nat, k: nat)
    requires k <= |candidates|
    ensures Characters(candidates[k..]) <= budget <==> |candidates| - k <= |Select(candidates, budget)|
  {
    if k < |candidates| {
      var m := |candidates| - 1;
      var last := candidates[m];
      var front := candidates[..m];
      assert candidates[k..] == front[k..] + [last];
      CharactersSnoc(front[k..], last);
      if |last.content| <= budget {
        SelectIsLongest(front, budget - |last.content|, k);
      }
    }
  }

  lemma {:induction false} SortSorted(s: seq<Message>)
    requires StrictlySorted(MessageSequenceOf, s)
    ensures SortBy(MessageSequenceOf, s) == s
  {
    SortByRestores(MessageSequenceOf, s, s);
  }

  lemma {:induction false} CutCandidates(history: seq<Message>, k: nat, n: nat)
    requires StrictlySorted(MessageSequenceOf, history) && n <= k
    ensures Candidates(LastK(history, k), n) == Candidates(history, n)
  {
    SortSorted(history);
    SortSorted(LastK(history, k));
  }

  /** Main result: a history already cut to its last `k` messages, k at least the effective limit, gives the same
      request as the full history. */
  lemma {:induction false} CutHistoryIsEnough(maxMessages: nat, maxCharacters: nat, history: seq<Message>,
                                              current: Message, correlationId: string, limit: int,
                                              model: Option<string>, valid: bool, k: nat)
    requires StrictlySorted(MessageSequenceOf, history)
    requires BoundedLimit(maxMessages, limit).Ok? ==> k >= BoundedLimit(maxMessages, limit).value
    ensures Build(maxMessages, maxCharacters, LastK(history, k), current, correlationId, limit, model, valid) ==
            Build(maxMessages, maxCharacters, history, current, correlationId, limit, model, valid)
  {
    if BoundedLimit(maxMessages, limit).Ok? {
      CutCandidates(history, k, BoundedLimit(maxMessages, limit).value);
    }
  }

  lemma {:induction false} SelectFits(candidates: seq<Message>, budget: nat)
    ensures Characters(Select(candidates, budget)) <= budget
  {
    SelectIsSuffix(candidates, budget);
    SelectIsLongest(candidates, budget, |candidates| - |Select(candidates, budget)|);
  }

  lemma {:induction false} SuffixOfSorted(s: seq<Message>, history: seq<Message>, from: nat)
    requires Sorted(MessageSequenceOf, s) && multiset(s) == multiset(history) && from <= |s|
    ensures Sorted(MessageSequenceOf, s[from..]) && forall m :: m in s[from..] ==> m in history
  {
    forall m | m in s[from..]
      ensures m in history
    {
      assert m in s;
      SameMembers(s, history, m);
    }
  }

  /** The history part of a request: in sequence order, taken from the history, bounded in count and characters. */
  ghost predicate GoodSelection(selected: seq<Message>, history: seq<Message>, count: nat, budget: nat) {
    && |selected| <= count
    && Characters(selected) <= budget
    && Sorted(MessageSequenceOf, selected)
    && forall m :: m in selected ==> m in history
  }

  lemma {:induction false} SelectedPart(history: seq<Message>, n: nat, budget: nat) returns (from: nat)
    ensures from <= |SortBy(MessageSequenceOf, history)|
    ensures Select(Candidates(history, n), budget) == SortBy(MessageSequenceOf, history)[from..]
    ensures |Select(Candidates(history, n), budget)| <= n
  {
    var sorted := SortBy(MessageSequenceOf, history);
    SelectIsSuffix(Candidates(history, n), budget);
    from := |sorted| - |Select(Candidates(history, n), budget)|;
  }

  lemma {:induction false} SelectionIsGood(history: seq<Message>, n: nat, budget: nat)
    ensures GoodSelection(Select(Candidates(history, n), budget), history, n, budget)
  {
    var sorted := SortBy(MessageSequenceOf, history);
    SortByPermutes(MessageSequenceOf, history);
    SelectFits(Candidates(history, n), budget);
    var from := SelectedPart(history, n, budget);
    SuffixOfSorted(sorted, history, from);
  }

  /** Exactly when a request is built, and how many messages of history it may take. */
  lemma {:induction false} BuildsIff(maxMessages: nat, maxCharacters: nat, history: seq<Message>, current: Message,
                                     correlationId: string, limit: int, model: Option<string>, valid: bool)
    ensures Build(maxMessages, maxCharacters, history, current, correlationId, limit, model, valid).Ok? <==>
            0 < limit && current.role == Aggregate.User && |current.content| <= maxCharacters && valid
    ensures 0 < limit ==>
              var bound := BoundedLimit(maxMessages, limit);
              bound.Ok? && bound.value <= limit && bound.value <= maxMessages &&
              (bound.value == limit || bound.value == maxMessages)
  {
  }

  /** No longer end of the ordered history has at most `count` messages and fits the budget. */
  ghost predicate Longest(selected: seq<Message>, ordered: seq<Message>, count: nat, budget: nat) {
    && |selected| <= |ordered| && selected == ordered[|ordered| - |selected|..]
    && forall k :: 0 <= k <= |ordered| && |ordered| - k <= count && Characters(ordered[k..]) <= budget ==>
                     |ordered| - k <= |selected|
  }

  lemma {:induction false} SelectionIsLongest(history: seq<Message>, n: nat, budget: nat)
    ensures Longest(Select(Candidates(history, n), budget), SortBy(MessageSequenceOf, history), n, budget)
  {
    var ordered := SortBy(MessageSequenceOf, history);
    var candidates := Candidates(history, n);
    var cut := |ordered| - |candidates|;
    var from := SelectedPart(history, n, budget);
    forall k | 0 <= k <= |ordered| && |ordered| - k <= n && Characters(ordered[k..]) <= budget
      ensures |ordered| - k <= |Select(candidates, budget)|
    {
      assert candidates[k - cut..] == ordered[k..];
      SelectIsLongest(candidates, budget, k - cut);
    }
  }

  /** The messages sent, one by one: the selected ones with the roles they were stored with, then the user's. */
  predicate Speaks(sent: seq<LlmMessage>, selected: seq<Message>, current: Message) {
    && |sent| == |selected| + 1
    && sent[|selected|] == LlmMessage(LlmSchemas.User, current.content)
    && forall j :: 0 <= j < |selected| ==>
                     sent[j].content == selected[j].content &&
                     (selected[j].role == Aggregate.User ==> sent[j].role == LlmSchemas.User) &&
                     (selected[j].role == Aggregate.Assistant ==> sent[j].role == LlmSchemas.Assistant)
  }

  function Texts(messages: seq<LlmMessage>): (r: seq<string>)
    ensures |r| == |messages|
    ensures forall i :: 0 <= i < |messages| ==> r[i] == messages[i].content
  {
    seq(|messages|, i requires 0 <= i < |messages| => messages[i].content)
  }

  /** The characters counted are those sent. */
  lemma {:induction false} CharactersAreSent(sent: seq<LlmMessage>, selected: seq<Message>, current: Message)
    requires Speaks(sent, selected, current)
    ensures |Concat(Texts(sent))| == Characters(selected) + |current.content|
    decreases |selected|
  {
    assert Texts(sent)[1..] == Texts(sent[1..]);
    if selected == [] {
      assert Texts(sent)[1..] == [];
    } else {
      forall j | 0 <= j < |selected[1..]|
        ensures sent[1..][j] == sent[j + 1] && selected[1..][j] == selected[j + 1]
      {
      }
      CharactersAreSent(sent[1..], selected[1..], current);
    }
  }

  lemma {:induction false} MessagesSpeak(selected: seq<Message>, current: Message)
    requires current.role == Aggregate.User
    ensures Speaks(ToLlmMessages(selected) + [ToLlmMessage(current)], selected, current)
  {
  }

  /** Main result: a request built is bounded in count and characters; its history part is taken from the history in
      sequence order and is the longest end of it that fits; and it ends with the current message. */
  lemma {:induction false} RequestIsBounded(maxMessages: nat, maxCharacters: nat, history: seq<Message>,
                                            current: Message, correlationId: string, limit: int,
                                            model: Option<string>, valid: bool)
    returns (selected: seq<Message>)
    requires Build(maxMessages, maxCharacters, history, current, correlationId, limit, model, valid).Ok?
    ensures var request := Build(maxMessages, maxCharacters, history, current, correlationId, limit, model, valid).value;
            request.messages == ToLlmMessages(selected) + [ToLlmMessage(current)] && current.role == Aggregate.User
    ensures var request := Build(maxMessages, maxCharacters, history, current, correlationId, limit, model, valid).value;
            Speaks(request.messages, selected, current) && request.modelName == model &&
            request.correlationId == correlationId && |Concat(Texts(request.messages))| <= maxCharacters
    ensures |current.content| <= maxCharacters
    ensures var count, budget := BoundedLimit(maxMessages, limit).value, maxCharacters - |current.content|;
            GoodSelection(selected, history, count, budget) &&
            Longest(selected, SortBy(MessageSequenceOf, history), count, budget)
  {
    var effective := BoundedLimit(maxMessages, limit).value;
    var budget := maxCharacters - |current.content|;
    selected := Select(Candidates(history, effective), budget);
    assert Build(maxMessages, maxCharacters, history, current, correlationId, limit, model, valid).value.messages ==
           ToLlmMessages(selected) + [ToLlmMessage(current)];
    MessagesSpeak(selected, current);
    SelectionIsGood(history, effective, budget);
    SelectionIsLongest(history, effective, budget);
    CharactersAreSent(ToLlmMessages(selected) + [ToLlmMessage(current)], selected, current);
  }
}
