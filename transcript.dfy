/** The chat transcript (`ChatApp.chat_history`) as a value: a list of
    (role, text) entries, and what each session operation does to it. The
    class in module Session keeps such a list and is specified by these
    functions; the lemmas here are about sequences of operations. */
module Transcript {

  datatype Role = User | Bot

  datatype Entry = Entry(role: Role, text: string)

  /** The text of the bot entry added while a lookup is running. */
  const Placeholder: string := "Поиск информации..."

  const WelcomeText: string :=
    "Добро пожаловать! Я могу найти информацию в Wikipedia. " +
    "Напишите слово, чтобы узнать его значение!"

  /** The history that `new_chat` leaves behind. */
  function Welcome(): (h: seq<Entry>)
    ensures |h| == 1 && h[0].role == Bot && h[0].text == WelcomeText
  {
    [Entry(Bot, WelcomeText)]
  }

  /** The history after sending the (already stripped, non-blank) query. */
  function Sent(h: seq<Entry>, query: string): (r: seq<Entry>)
    ensures |r| == |h| + 2 && r[..|h|] == h
    ensures r[|h|] == Entry(User, query) && r[|h| + 1] == Entry(Bot, Placeholder)
  {
    h + [Entry(User, query), Entry(Bot, Placeholder)]
  }

  /** The guard of `update_message`: the list is non-empty and its last
      entry's text (whatever its role) is the placeholder. As long as a bot
      entry is last, this is exactly "the last entry is a bot placeholder". */
  function EndsWithPlaceholder(h: seq<Entry>): (b: bool)
    ensures LastIsBot(h) ==> (b <==> h != [] && h[|h| - 1] == Entry(Bot, Placeholder))
  {
    h != [] && h[|h| - 1].text == Placeholder
  }

  /** The history after an answer arrives: a last placeholder entry is dropped
      and the answer is appended. */
  function Resolved(h: seq<Entry>, answer: string): (r: seq<Entry>)
    ensures |r| == |h| || |r| == |h| + 1
    ensures |r| == |h| <==> EndsWithPlaceholder(h)
    ensures r[|r| - 1] == Entry(Bot, answer)
    ensures r[..|r| - 1] == h[..|r| - 1]
  {
    var kept := if EndsWithPlaceholder(h) then h[..|h| - 1] else h;
    kept + [Entry(Bot, answer)]
  }

  /** Every operation leaves a bot entry last; an empty history has none. */
  predicate LastIsBot(h: seq<Entry>) {
    h == [] || h[|h| - 1].role == Bot
  }

  lemma OperationsKeepBotLast(h: seq<Entry>, query: string, answer: string)
    ensures LastIsBot(Welcome())
    ensures LastIsBot(Sent(h, query))
    ensures LastIsBot(Resolved(h, answer))
  {
  }

  /** One query that resolves before the next is sent: the placeholder is
      gone and the transcript gains exactly the question and its answer. */
  lemma {:induction false} SendThenResolve(h: seq<Entry>, query: string, answer: string)
    ensures Resolved(Sent(h, query), answer) == h + [Entry(User, query), Entry(Bot, answer)]
  {
    var s := Sent(h, query);
    assert s[..|s| - 1] == h + [Entry(User, query)];
  }

  /** Two overlapping queries whose answers arrive in order: the first answer
      replaces the SECOND placeholder (the last entry), the second answer finds
      no placeholder at the end and is appended, and the first placeholder is
      left in the transcript for good. */
  lemma {:induction false} OverlapLeavesStalePlaceholder(h: seq<Entry>, q1: string, q2: string, a1: string, a2: string)
    requires a1 != Placeholder
    ensures Resolved(Resolved(Sent(Sent(h, q1), q2), a1), a2) ==
      h + [Entry(User, q1), Entry(Bot, Placeholder), Entry(User, q2), Entry(Bot, a1), Entry(Bot, a2)]
  {
    var s := Sent(Sent(h, q1), q2);
    assert s[..|s| - 1] == h + [Entry(User, q1), Entry(Bot, Placeholder), Entry(User, q2)];
  }

  /** The history after sending each query of `queries` in turn. */
  function SendAll(h: seq<Entry>, queries: seq<string>): seq<Entry>
    decreases |queries|
  {
    if queries == [] then h else SendAll(Sent(h, queries[0]), queries[1..])
  }

  /** The history after the answers arrive one after the other. */
  function ResolveAll(h: seq<Entry>, answers: seq<string>): seq<Entry>
    decreases |answers|
  {
    if answers == [] then h else ResolveAll(Resolved(h, answers[0]), answers[1..])
  }

  /** How many placeholder bot entries the history holds. */
  function Pending(h: seq<Entry>): nat
  {
    if h == [] then 0
    else Pending(h[..|h| - 1]) + (if h[|h| - 1] == Entry(Bot, Placeholder) then 1 else 0)
  }

  lemma {:induction false} PendingAppend(h: seq<Entry>, e: Entry)
    ensures Pending(h + [e]) == Pending(h) + (if e == Entry(Bot, Placeholder) then 1 else 0)
  {
    assert (h + [e])[..|h|] == h;
  }

  lemma {:induction false} SendAllAddsPending(h: seq<Entry>, queries: seq<string>)
    ensures |SendAll(h, queries)| == |h| + 2 * |queries|
    ensures Pending(SendAll(h, queries)) == Pending(h) + |queries|
    ensures queries != [] ==> SendAll(h, queries)[|SendAll(h, queries)| - 1] == Entry(Bot, Placeholder)
    decreases |queries|
  {
    if queries != [] {
      var s := Sent(h, queries[0]);
      assert s == (h + [Entry(User, queries[0])]) + [Entry(Bot, Placeholder)];
      PendingAppend(h, Entry(User, queries[0]));
      PendingAppend(h + [Entry(User, queries[0])], Entry(Bot, Placeholder));
      SendAllAddsPending(s, queries[1..]);
    }
  }

  /** Once the last entry is an answer (not the placeholder text), every
      further answer is appended and no placeholder is removed. */
  lemma {:induction false} ResolveAllAfterAnswer(h: seq<Entry>, answers: seq<string>)
    requires h != [] && h[|h| - 1].text != Placeholder
    requires forall i | 0 <= i < |answers| :: answers[i] != Placeholder
    ensures |ResolveAll(h, answers)| == |h| + |answers|
    ensures Pending(ResolveAll(h, answers)) == Pending(h)
    decreases |answers|
  {
    if answers != [] {
      var r := Resolved(h, answers[0]);
      assert r == h + [Entry(Bot, answers[0])];
      PendingAppend(h, Entry(Bot, answers[0]));
      ResolveAllAfterAnswer(r, answers[1..]);
    }
  }

  /** n >= 1 queries all sent before any answer arrives, then n answers: only
      one placeholder is ever removed, so n - 1 placeholders stay in the
      transcript and it grows by 3n - 1 entries rather than 2n. */
  lemma {:induction false} BurstLeavesStalePlaceholders(h: seq<Entry>, queries: seq<string>, answers: seq<string>)
    requires queries != [] && |answers| == |queries|
    requires forall i | 0 <= i < |answers| :: answers[i] != Placeholder
    ensures Pending(ResolveAll(SendAll(h, queries), answers)) == Pending(h) + |queries| - 1
    ensures |ResolveAll(SendAll(h, queries), answers)| == |h| + 3 * |queries| - 1
  {
    var s := SendAll(h, queries);
    SendAllAddsPending(h, queries);
    var r := Resolved(s, answers[0]);
    assert r == s[..|s| - 1] + [Entry(Bot, answers[0])];
    assert s == s[..|s| - 1] + [Entry(Bot, Placeholder)];
    PendingAppend(s[..|s| - 1], Entry(Bot, Placeholder));
    PendingAppend(s[..|s| - 1], Entry(Bot, answers[0]));
    ResolveAllAfterAnswer(r, answers[1..]);
  }
}
