# Wiki-gpt chat session, modelled in Dafny

Wiki-gpt is a one-screen Kivy chat app. The user types a word, and a
background thread fetches a short Russian Wikipedia summary, which is shown
as the bot's reply. This project models the logic of `ChatApp` and
`ChatMessage` in `main.py` once the widgets, threads and network library
are taken away:

- **Session state** (`session.dfy`, class `Session.ChatApp`). It holds the
  transcript (`chat_history`), the theme flag, the theme button's caption,
  the input field's text and the message widgets in the chat column. Its
  methods are `send_message`, `update_message`, `new_chat`,
  `show_welcome_message` and `toggle_theme`. Each method's `ensures` gives
  the whole new state and says what stays unchanged.
- **Transcript algebra** (`transcript.dfy`). These pure functions describe
  what each operation does to the list of `(role, text)` entries, and the
  lemmas are about sequences of operations. Overlapping queries can call
  `update_message` in any order. One lemma shows that such an ordering
  leaves a stale `'Поиск информации...'` placeholder in the transcript.
  Another shows that n queries sent before any answer arrives leave n − 1
  placeholders behind, provided that no answer is itself
  `'Поиск информации...'`.
- **Answer selection** (`lookup.dfy`). This models the branches of
  `get_wikipedia_answer`. The library calls are replaced by two outcome
  datatypes: one for the search and one for the page/summary fetch of the
  top title. The result is a total function, so every path produces exactly
  one answer.
- **Bubble sizing** (`layout.dfy`). This models the height rule of
  `update_message_height`, with `dp(v)` taken as `v` times a whole-number
  screen density.
- **Python string builtins** (`text.dfy`). This defines `str.strip()` with
  Python's whitespace set, `', '.join`, and a split that recovers the joined
  parts when no part contains the separator's first character.

Because the model tracks the widgets, it can compare the transcript with
what is on screen. `update_message` always removes its own loading widget
(`main.py:377`). It pops the transcript entry only when the last entry's
text is `'Поиск информации...'` (`main.py:378-379`).
`Session.OverlappingQueries` sends two queries and then lets both answers
arrive in order. The column reads `[welcome, q1, q2, a1, a2]`. The
transcript holds the same entries in the same order, plus the first
`('bot', 'Поиск информации...')` entry, which stays between q1 and q2.
`Session.OverlappingQueriesReversed` proves the same for the other arrival
order, where the column reads `[welcome, q1, q2, a2, a1]`.

The loading widget shows `'Поиск информации в Wikipedia...'` while the
transcript records `'Поиск информации...'`, and both texts are kept.

## Model

| member | source | states |
|---|---|---|
| Text.StripLeft | main.py:332 | `lstrip` never lengthens the string, and what it leaves does not start with whitespace |
| Text.StripRight | main.py:332 | `rstrip` never lengthens the string, and what it leaves does not end with whitespace |
| Text.Strip | main.py:332 | `strip` never lengthens the query, and what it leaves has no whitespace at either end |
| Text.StripSpec | main.py:332-334 | the stripped input has no whitespace at either end, and it is empty exactly when the input was empty or all whitespace, so `if not text: return` fires exactly on blank input |
| Text.StripLeftSpec | main.py:332 | `lstrip` keeps the suffix that starts at the first non-space character and drops only whitespace |
| Text.StripRightSpec | main.py:332 | `rstrip` keeps the prefix that ends at the last non-space character and drops only whitespace |
| Text.StripCharacterized | main.py:332 | whitespace, then a trimmed core, then whitespace always strips to exactly that core (strip is determined by its result) |
| Text.StripIdempotent | main.py:332 | stripping an already stripped query changes nothing |
| Text.SplitJoin | main.py:365 | splitting `sep.join(parts)` at `sep` gives back `parts` when no part contains the separator's first character |
| Text.Join | main.py:365 | `sep.join(parts)` is empty for no parts; otherwise its length is the parts' total length plus one separator for each adjacent pair |
| Text.Take | main.py:365 | `s[:n]` has `min(n, len(s))` elements, and they are the first ones of `s` in order |
| Lookup.OptionList | main.py:365 | `', '.join(e.options[:3])` is empty with no candidates. When no candidate contains a comma, splitting it at `', '` gives back exactly `e.options[:3]` |
| Lookup.OptionListNamesFirstThree | main.py:365 | for any candidates, commas included, the list is the first `min(3, len(options))` candidates in their original order, each pair separated by `', '` |
| Lookup.AmbiguousAnswer | main.py:364-366 | the ambiguous answer is the intro `'Найдено несколько вариантов: '`, then the joined candidate list, then a final `'.'` |
| Lookup.PageAnswer | main.py:360-370 | summary gives its text, a disambiguation gives the candidate answer, a `PageError` gives the rephrase text, any other exception gives `'Ой, кажется нет интернета.'` |
| Lookup.Answer | main.py:353-372 | an outer failure gives the no-internet text, an empty search gives the not-found text, and otherwise the answer is the page answer for the top title |
| Lookup.AnswerDependsOnTopTitleOnly | main.py:356-362 | only `search_results[0]` is fetched, so titles after the first never change the answer |
| Lookup.CannedAnswersDistinct | main.py:357-372 | the not-found, rephrase and no-internet texts differ pairwise, and an ambiguous answer is never the no-internet text |
| Lookup.NoInternetExactlyOnFailure | main.py:354-372 | the answer is `'Ой, кажется нет интернета.'` if and only if the search failed, the top page fetch failed for a reason other than ambiguity or a missing page, or the summary itself is that text; the inner and outer handlers agree |
| Lookup.AmbiguousListsFirstThree | main.py:364-366 | the candidate list in the answer splits back into exactly the first `min(3, len(options))` options, in order, when no option contains a comma |
| Lookup.AmbiguousWithoutOptions | main.py:365-366 | a disambiguation with no candidates gives the intro followed by `'.'` |
| Lookup.AmbiguousScenario | main.py:364-366 | candidates A, B, C, D give the intro followed by `'A, B, C.'` |
| Layout.LabelHeight | main.py:121-125 | the label height is at least `dp(60)` and at least `text_height + dp(30)`, and it equals one of the two |
| Layout.RowHeight | main.py:126 | the row is always exactly `dp(30)` taller than the label, and so at least `dp(90)` |
| Layout.LabelHeightIsLeast | main.py:124 | the label height is the least height that meets both bounds |
| Layout.HeightsMonotonic | main.py:124-126 | taller text never gives a shorter label or row |
| Layout.ShortTextGetsMinimum | main.py:124-126 | text at most `dp(30)` tall gets the `dp(60)` label and a `dp(90)` row, which is taller than the `dp(80)` the row was created with |
| Layout.TallTextGetsPadding | main.py:124 | text taller than `dp(30)` gets a label of exactly `text_height + dp(30)` |
| Transcript.Welcome | main.py:315-327 | a new chat's history is exactly one bot entry holding the welcome text |
| Transcript.Sent | main.py:336-344 | a send appends exactly `('user', text)` and then `('bot', 'Поиск информации...')` and leaves all earlier entries untouched |
| Transcript.EndsWithPlaceholder | main.py:378 | the pop guard checks only the last entry's text. While a bot entry is last, it holds exactly when that entry is `('bot', 'Поиск информации...')` |
| Transcript.Resolved | main.py:378-382 | an update grows the history by 0 or 1 entries (by 0 exactly when the last text is the placeholder), keeps every entry before the new last one, and ends with `('bot', answer)` |
| Transcript.OperationsKeepBotLast | main.py:315-382 | welcome, send and update each leave a bot entry last |
| Transcript.SendThenResolve | main.py:336-382 | one send followed by its update turns `h` into `h + [('user', q), ('bot', answer)]` |
| Transcript.OverlapLeavesStalePlaceholder | main.py:376-382 | two sends and then two updates in order leave the first placeholder in the history and put the first answer after the second question |
| Transcript.SendAllAddsPending | main.py:336-344 | n sends add 2n entries and n placeholders, and the last entry is a placeholder |
| Transcript.ResolveAllAfterAnswer | main.py:378-382 | once an answer is last, each later answer is appended and no placeholder is removed |
| Transcript.BurstLeavesStalePlaceholders | main.py:331-382 | n ≥ 1 sends followed by n answers leave n − 1 placeholders, and the history grows by 3n − 1 entries |
| Session.ThemeButtonText | main.py:288-299 | the theme button shows `'светлая'` exactly in the dark theme |
| Session.Toggled | main.py:288-298 | toggling always changes the theme |
| Session.ToggleTwiceRestores | main.py:287-305 | toggling twice restores the theme and the button caption, and one toggle changes the caption |
| Session.Without | main.py:377 | `remove_widget` never adds widgets |
| Session.WithoutFilters | main.py:377 | removing a widget keeps every other widget, in order, and nothing else |
| Session.WithoutShown | main.py:377 | removing a shown widget whose identity is unique leaves the widgets before and after it, in order |
| Session.WithoutAbsent | main.py:377 | removing a widget that is no longer shown changes nothing (Kivy ignores it) |
| Session.ChatApp.constructor | main.py:129-132 | a new app has an empty history, the dark theme, an empty input field and an empty column |
| Session.ChatApp.EditInput | main.py:215-228 | typing changes only the input field's text |
| Session.ChatApp.ToggleTheme | main.py:287-305 | the theme flips, the caption matches the new theme, and the history, column and input are untouched |
| Session.ChatApp.ShowWelcomeMessage | main.py:315-322 | appends one welcome widget and one `('bot', welcome_text)` entry |
| Session.ChatApp.NewChat | main.py:324-329 | whatever the history held, it becomes exactly `[('bot', welcome_text)]` and the column holds only the welcome widget |
| Session.ChatApp.SendMessage | main.py:331-351 | blank input after strip changes nothing (not even the field). Otherwise it appends the user entry and the placeholder, shows the user widget and the loading widget, clears the field and returns the query and loading widget for the lookup |
| Session.ChatApp.UpdateMessage | main.py:376-383 | the history becomes `Resolved(old history, answer)`, and its length stays the same exactly when the old last entry was a bot placeholder. The loading widget is removed by identity (nowhere on screen afterwards) before the answer widget is appended |
| Session.SingleQuery | main.py:331-383 | from a new chat, one query and its lookup give `welcome + [('user', q), ('bot', Answer(...))]` in both history and column, and a blank query leaves only the welcome |
| Session.OverlapColumn | main.py:376-382 | with two overlapping queries, each update removes exactly its own loading widget in both arrival orders, and the answers are shown in the order they arrive |
| Session.StartTwoQueries | main.py:331-345 | two non-blank sends after a new chat leave two user entries each followed by a placeholder, and five widgets |
| Session.OverlappingQueries | main.py:331-383 | two overlapping queries answered in order: the column reads `[welcome, q1, q2, a1, a2]`. The history has the same entries plus the stale first placeholder between `q1` and `q2` |
| Session.OverlappingQueriesReversed | main.py:331-383 | the same two queries answered in reverse order: the column reads `[welcome, q1, q2, a2, a1]`. The history has the same entries plus the stale first placeholder between `q1` and `q2` |

## Left out

- Widget construction, canvas drawing, colours, fonts and padding (`main.py:30-65`, `134-285`): these are presentation, and the colours are float tuples. `ToggleTheme` records only the theme flag and the button caption, not the colour assignments of `main.py:291-310`.
- The header label (`'Вы:'` / `'Ответ:'`) and spacer widgets inside each `ChatMessage`: a widget is modelled by its identity, its side and its text.
- `threading.Thread` and `Clock.schedule_once` (`main.py:115`, `313`, `329`, `340`, `345`, `347-351`, `374`, `383`): concurrency is modelled as the order in which `UpdateMessage` calls happen. `on_start`'s delayed `new_chat` is not modelled.
- The `wikipedia` library (`set_lang`, `search`, `page`, `summary`): this is a foreign network API. Its results are the inputs `SearchOutcome` and `PageOutcome`. Whether a `DisambiguationError` comes from `page` or from `summary` makes no difference to the code, so one outcome covers both.
- `scroll_to_bottom`, input focus, `text_size` and `texture_update` (`main.py:118-119`, `328-329`, `385-386`): these are UI side effects. The rendered text height is an input to `Layout.LabelHeight`.
- Android permission requests and the `Config`/`Window` settings (`main.py:16-28`): these are platform I/O.
- Layout.LabelHeight: `dp()` returns floats and depends on the device's density. The model uses whole-number pixels, with `dp(v)` as `v` times a whole-number density, so fractional densities are not covered.
- Session.Without: Kivy removes one widget instance. The model removes every widget with the given identity. The two agree because the class invariant keeps identities distinct.
- Session.ChatApp.EditInput: this stands for the user typing into the `TextInput`. It is an external event, not a method of the source.

## Findings

None.
