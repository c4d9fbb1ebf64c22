/** The session state of `ChatApp`: the transcript, the colour theme and the
    label of the button that switches it, the text of the input field, and
    the message widgets shown in the chat column. Widgets are kept as values
    with an identity (`id`), since `update_message` removes its own loading
    widget by identity but pops the transcript's last entry by text. */
module Session {
  import opened Text
  import opened Transcript
  import Lookup

  datatype Option<T> = None | Some(value: T)

  datatype Theme = Dark | Light

  /** A `ChatMessage` widget in the chat column: its identity, whether it is
      the user's bubble, and its text. */
  datatype Message = Message(id: nat, fromUser: bool, text: string)

  /** What `send_message` hands to the background lookup: the stripped query
      and the loading widget to replace. */
  datatype Query = Query(text: string, loading: nat)

  /** The text of the loading widget; the transcript gets `Placeholder`. */
  const LoadingText: string := "Поиск информации в Wikipedia..."

  /** The theme button names the theme it switches to. */
  function ThemeButtonText(theme: Theme): (caption: string)
    ensures theme == Dark <==> caption == "светлая"
  {
    match theme
    case Dark => "светлая"
    case Light => "тёмная"
  }

  function Toggled(theme: Theme): (t: Theme)
    ensures t != theme
  {
    if theme == Dark then Light else Dark
  }

  /** Toggling twice restores the theme and with it the button label. */
  lemma ToggleTwiceRestores(theme: Theme)
    ensures Toggled(Toggled(theme)) == theme
    ensures ThemeButtonText(Toggled(Toggled(theme))) == ThemeButtonText(theme)
    ensures ThemeButtonText(Toggled(theme)) != ThemeButtonText(theme)
  {
  }

  predicate IdsIncreasing(ms: seq<Message>) {
    forall i, j | 0 <= i < j < |ms| :: ms[i].id < ms[j].id
  }

  predicate IdsBelow(ms: seq<Message>, bound: nat) {
    forall i | 0 <= i < |ms| :: ms[i].id < bound
  }

  /** A widget with a fresh identity keeps the identities increasing. */
  lemma AppendFresh(ms: seq<Message>, m: Message, bound: nat)
    requires IdsIncreasing(ms) && IdsBelow(ms, bound) && bound <= m.id
    ensures IdsIncreasing(ms + [m]) && IdsBelow(ms + [m], m.id + 1)
  {
  }

  /** `chat_layout.remove_widget(w)`: the column without widget `id`; nothing
      happens when it is not shown (any more). */
  function Without(ms: seq<Message>, id: nat): (r: seq<Message>)
    ensures |r| <= |ms|
  {
    if ms == [] then []
    else if ms[0].id == id then Without(ms[1..], id)
    else [ms[0]] + Without(ms[1..], id)
  }

  /** Removal keeps every other widget, in order, and nothing else. */
  lemma {:induction false} WithoutFilters(ms: seq<Message>, id: nat)
    ensures forall m :: m in Without(ms, id) <==> m in ms && m.id != id
    ensures IdsIncreasing(ms) ==> IdsIncreasing(Without(ms, id))
    decreases |ms|
  {
    if ms != [] {
      WithoutFilters(ms[1..], id);
    }
  }

  /** Removing a widget whose identity no other shown widget has removes
      exactly that widget and keeps the others in order. */
  lemma {:induction false} WithoutShown(before: seq<Message>, m: Message, after: seq<Message>)
    requires forall i | 0 <= i < |before| :: before[i].id != m.id
    requires forall i | 0 <= i < |after| :: after[i].id != m.id
    ensures Without(before + [m] + after, m.id) == before + after
    decreases |before|
  {
    var ms := before + [m] + after;
    if before == [] {
      assert ms[1..] == after;
      WithoutAbsent(after, m.id);
    } else {
      assert ms[0] == before[0];
      assert ms[1..] == before[1..] + [m] + after;
      WithoutShown(before[1..], m, after);
      assert [before[0]] + (before[1..] + after) == before + after;
    }
  }

  lemma {:induction false} WithoutAbsent(ms: seq<Message>, id: nat)
    requires forall i | 0 <= i < |ms| :: ms[i].id != id
    ensures Without(ms, id) == ms
    decreases |ms|
  {
    if ms != [] {
      WithoutAbsent(ms[1..], id);
      assert [ms[0]] + ms[1..] == ms;
    }
  }

  function Texts(ms: seq<Message>): (ts: seq<string>)
    ensures |ts| == |ms| && forall i | 0 <= i < |ms| :: ts[i] == ms[i].text
  {
    if ms == [] then [] else [ms[0].text] + Texts(ms[1..])
  }

  class ChatApp {
    /** `self.chat_history` */
    var history: seq<Entry>
    /** `self.theme` */
    var theme: Theme
    /** `self.theme_button.text` */
    var themeButtonText: string
    /** `self.input_field.text` */
    var inputText: string
    /** `self.chat_layout`'s children, top to bottom */
    var messages: seq<Message>
    /** the identity the next widget gets */
    var nextId: nat

    ghost predicate Valid()
      reads this
    {
      && themeButtonText == ThemeButtonText(theme)
      && LastIsBot(history)
      && IdsIncreasing(messages)
      && IdsBelow(messages, nextId)
    }

    /** `ChatApp.__init__` and `build`: an empty transcript, the dark theme,
        an empty input field and an empty chat column. */
    constructor ()
      ensures Valid()
      ensures history == [] && theme == Dark && inputText == [] && messages == [] && nextId == 0
    {
      history := [];
      theme := Dark;
      themeButtonText := "светлая";
      inputText := [];
      messages := [];
      nextId := 0;
    }

    /** The user edits the input field (a `TextInput` event). */
    method EditInput(text: string)
      requires Valid()
      modifies this
      ensures Valid()
      ensures inputText == text
      ensures history == old(history) && theme == old(theme) && messages == old(messages)
      ensures themeButtonText == old(themeButtonText) && nextId == old(nextId)
    {
      inputText := text;
    }

    /** `toggle_theme`: switch the theme and the button label; the transcript
        and the chat column are not touched. */
    method ToggleTheme()
      requires Valid()
      modifies this
      ensures Valid()
      ensures theme == Toggled(old(theme)) && themeButtonText == ThemeButtonText(theme)
      ensures history == old(history) && messages == old(messages)
      ensures inputText == old(inputText) && nextId == old(nextId)
    {
      if theme == Dark {
        theme := Light;
        themeButtonText := "тёмная";
      } else {
        theme := Dark;
        themeButtonText := "светлая";
      }
    }

    /** `show_welcome_message`: a welcome widget and a welcome bot entry. */
    method ShowWelcomeMessage()
      requires Valid()
      modifies this
      ensures Valid()
      ensures history == old(history) + Welcome()
      ensures messages == old(messages) + [Message(old(nextId), false, WelcomeText)]
      ensures nextId == old(nextId) + 1
      ensures theme == old(theme) && themeButtonText == old(themeButtonText) && inputText == old(inputText)
    {
      messages := messages + [Message(nextId, false, WelcomeText)];
      nextId := nextId + 1;
      history := history + [Entry(Bot, WelcomeText)];
    }

    /** `new_chat`: clear the column and the transcript, then welcome. */
    method NewChat()
      requires Valid()
      modifies this
      ensures Valid()
      ensures history == Welcome()
      ensures messages == [Message(old(nextId), false, WelcomeText)]
      ensures nextId == old(nextId) + 1
      ensures theme == old(theme) && themeButtonText == old(themeButtonText) && inputText == old(inputText)
    {
      messages := [];
      history := [];
      ShowWelcomeMessage();
    }

    /** `send_message`: ignore blank input; otherwise record the stripped
        query and a placeholder, show both, clear the field, and return what
        the background lookup is started with. */
    method SendMessage() returns (query: Option<Query>)
      requires Valid()
      modifies this
      ensures Valid()
      ensures var text := Strip(old(inputText));
        if text == [] then
          && query == None
          && history == old(history) && messages == old(messages)
          && inputText == old(inputText) && nextId == old(nextId)
        else
          && query == Some(Query(text, old(nextId) + 1))
          && history == Sent(old(history), text)
          && messages == old(messages) + [Message(old(nextId), true, text), Message(old(nextId) + 1, false, LoadingText)]
          && inputText == [] && nextId == old(nextId) + 2
      ensures theme == old(theme) && themeButtonText == old(themeButtonText)
    {
      var text := Strip(inputText);
      if text == [] {
        return None;
      }
      var asked := Message(nextId, true, text);
      var loading := Message(nextId + 1, false, LoadingText);
      AppendFresh(messages, asked, nextId);
      AppendFresh(messages + [asked], loading, nextId + 1);
      assert messages + [asked] + [loading] == messages + [asked, loading];
      history := Sent(history, text);
      messages := messages + [asked, loading];
      inputText := [];
      nextId := nextId + 2;
      query := Some(Query(text, loading.id));
    }

    /** `update_message`: remove the loading widget, drop the last transcript
        entry if it is a placeholder, and add the answer as widget and entry. */
    method UpdateMessage(loading: nat, answer: string)
      requires Valid()
      modifies this
      ensures Valid()
      ensures history == Resolved(old(history), answer)
      ensures |history| == |old(history)| <==>
        old(history) != [] && old(history)[|old(history)| - 1] == Entry(Bot, Placeholder)
      ensures messages == Without(old(messages), loading) + [Message(old(nextId), false, answer)]
      ensures forall i | 0 <= i < |messages| - 1 :: messages[i].id != loading
      ensures nextId == old(nextId) + 1
      ensures theme == old(theme) && themeButtonText == old(themeButtonText) && inputText == old(inputText)
    {
      var kept := Without(messages, loading);
      WithoutFilters(messages, loading);
      forall i | 0 <= i < |kept|
        ensures kept[i].id < nextId && kept[i].id != loading
      {
        assert kept[i] in kept;
      }
      var answered := Message(nextId, false, answer);
      AppendFresh(kept, answered, nextId);
      if history != [] && history[|history| - 1].text == Placeholder {
        history := history[..|history| - 1];
      }
      history := history + [Entry(Bot, answer)];
      messages := kept + [answered];
      nextId := nextId + 1;
    }
  }

  /** A fresh session: new chat, one query, its lookup resolves. A blank
      query leaves only the welcome; otherwise the transcript and the column
      both end with the question and the answer selected from the lookup. */
  method SingleQuery(input: string, search: Lookup.SearchOutcome, fetch: string -> Lookup.PageOutcome)
    returns (history: seq<Entry>, shown: seq<string>)
    ensures Strip(input) == [] ==> history == Welcome() && shown == [WelcomeText]
    ensures Strip(input) != [] ==>
      && history == Welcome() + [Entry(User, Strip(input)), Entry(Bot, Lookup.Answer(search, fetch))]
      && shown == [WelcomeText, Strip(input), Lookup.Answer(search, fetch)]
  {
    var app := new ChatApp();
    app.NewChat();
    app.EditInput(input);
    var query := app.SendMessage();
    if query.Some? {
      ghost var before := app.messages;
      app.UpdateMessage(query.value.loading, Lookup.Answer(search, fetch));
      assert before == [before[0], before[1]] + [before[2]] + [];
      WithoutShown([before[0], before[1]], before[2], []);
      SendThenResolve(Welcome(), Strip(input), Lookup.Answer(search, fetch));
    }
    history := app.history;
    shown := Texts(app.messages);
  }

  /** The chat column with two loading widgets (identities 2 and 4): in
      either order, each update removes the loading widget it was given and
      the answers are shown in the order they arrive. */
  lemma OverlapColumn(w: Message, u1: Message, l2: Message, u3: Message, l4: Message, a5: Message, a6: Message)
    requires w.id == 0 && u1.id == 1 && l2.id == 2 && u3.id == 3 && l4.id == 4 && a5.id == 5
    ensures Without(Without([w, u1, l2, u3, l4], 2) + [a5], 4) + [a6] == [w, u1, u3, a5, a6]
    ensures Without(Without([w, u1, l2, u3, l4], 4) + [a5], 2) + [a6] == [w, u1, u3, a5, a6]
  {
    assert [w, u1, l2, u3, l4] == [w, u1] + [l2] + [u3, l4];
    WithoutShown([w, u1], l2, [u3, l4]);
    assert [w, u1] + [u3, l4] + [a5] == [w, u1, u3] + [l4] + [a5];
    WithoutShown([w, u1, u3], l4, [a5]);
    assert [w, u1, l2, u3, l4] == [w, u1, l2, u3] + [l4] + [];
    WithoutShown([w, u1, l2, u3], l4, []);
    assert [w, u1, l2, u3] + [] + [a5] == [w, u1] + [l2] + [u3, a5];
    WithoutShown([w, u1], l2, [u3, a5]);
  }

  /** A fresh session after new chat and two non-blank queries, neither
      of them resolved yet. */
  method StartTwoQueries(q1: string, q2: string) returns (app: ChatApp)
    requires Strip(q1) != [] && Strip(q2) != []
    ensures fresh(app) && app.Valid()
    ensures app.history == Sent(Sent(Welcome(), Strip(q1)), Strip(q2))
    ensures app.messages == [Message(0, false, WelcomeText), Message(1, true, Strip(q1)), Message(2, false, LoadingText),
                             Message(3, true, Strip(q2)), Message(4, false, LoadingText)]
    ensures app.nextId == 5
  {
    app := new ChatApp();
    app.NewChat();
    app.EditInput(q1);
    var first := app.SendMessage();
    ghost var one := app.messages;
    assert one == [Message(0, false, WelcomeText), Message(1, true, Strip(q1)), Message(2, false, LoadingText)];
    app.EditInput(q2);
    var second := app.SendMessage();
    assert app.messages == one + [Message(3, true, Strip(q2)), Message(4, false, LoadingText)];
  }

  /** Two queries sent before either lookup resolves, the answers arriving in
      order. Both loading widgets leave the column, which reads q1, q2, a1,
      a2. The transcript holds the same entries but also keeps the first
      placeholder, between q1 and q2, because the first answer pops only the
      last entry. */
  method OverlappingQueries(q1: string, q2: string, a1: string, a2: string)
    returns (history: seq<Entry>, shown: seq<string>)
    requires Strip(q1) != [] && Strip(q2) != [] && a1 != Placeholder
    ensures history == Welcome() +
      [Entry(User, Strip(q1)), Entry(Bot, Placeholder), Entry(User, Strip(q2)), Entry(Bot, a1), Entry(Bot, a2)]
    ensures shown == [WelcomeText, Strip(q1), Strip(q2), a1, a2]
  {
    var app := StartTwoQueries(q1, q2);
    ghost var sent := app.messages;
    app.UpdateMessage(2, a1);
    app.UpdateMessage(4, a2);
    OverlapColumn(sent[0], sent[1], sent[2], sent[3], sent[4], Message(5, false, a1), Message(6, false, a2));
    OverlapLeavesStalePlaceholder(Welcome(), Strip(q1), Strip(q2), a1, a2);
    history := app.history;
    shown := Texts(app.messages);
  }

  /** The same two queries with the answers arriving the other way round:
      the column reads q1, q2, a2, a1, and the transcript again keeps the
      first placeholder between q1 and q2. */
  method OverlappingQueriesReversed(q1: string, q2: string, a1: string, a2: string)
    returns (history: seq<Entry>, shown: seq<string>)
    requires Strip(q1) != [] && Strip(q2) != [] && a2 != Placeholder
    ensures history == Welcome() +
      [Entry(User, Strip(q1)), Entry(Bot, Placeholder), Entry(User, Strip(q2)), Entry(Bot, a2), Entry(Bot, a1)]
    ensures shown == [WelcomeText, Strip(q1), Strip(q2), a2, a1]
  {
    var app := StartTwoQueries(q1, q2);
    ghost var sent := app.messages;
    app.UpdateMessage(4, a2);
    app.UpdateMessage(2, a1);
    OverlapColumn(sent[0], sent[1], sent[2], sent[3], sent[4], Message(5, false, a2), Message(6, false, a1));
    OverlapLeavesStalePlaceholder(Welcome(), Strip(q1), Strip(q2), a2, a1);
    history := app.history;
    shown := Texts(app.messages);
  }
}
