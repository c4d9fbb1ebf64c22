/** The answer selection of `ChatApp.get_wikipedia_answer`: how the outcome of
    the encyclopedia search and of the summary fetch for its top title becomes
    the one string shown to the user. The library calls themselves are not
    modelled; their observable results are the two outcome datatypes. */
module Lookup {
  import opened Text

  /** What `wikipedia.set_lang("ru")` followed by `wikipedia.search(query)`
      yields: the list of titles, or an exception (no network, for one). */
  datatype SearchOutcome = SearchFailed | Titles(titles: seq<string>)

  /** What `wikipedia.page(title)` followed by `wikipedia.summary(title,
      sentences=3)` yields for one title: the summary text, a
      `DisambiguationError` with its candidate titles, a `PageError`, or any
      other exception. */
  datatype PageOutcome =
    | Summary(text: string)
    | Ambiguous(options: seq<string>)
    | PageMissing
    | PageFailed

  const NotFound: string := "Информация по данному запросу не найдена в Wikipedia."
  const Rephrase: string := "К сожелению мы ничего не нашли. Попробуйте изменить запрос."
  const NoInternet: string := "Ой, кажется нет интернета."
  const AmbiguousIntro: string := "Найдено несколько вариантов: "
  const OptionSeparator: string := ", "
  /** How many disambiguation candidates the answer lists. */
  const ShownOptions: nat := 3

  /** The candidate list of an ambiguous answer: `', '.join(e.options[:3])`.
      When no candidate contains a comma, splitting the list at `", "` gives
      back exactly the first three candidates (fewer if there are fewer). */
  function OptionList(options: seq<string>): (list: string)
    ensures options == [] ==> list == []
    ensures options != [] && (forall i | 0 <= i < |options| :: ',' !in options[i]) ==>
      Split(list, OptionSeparator) == Take(options, ShownOptions)
  {
    var shown := Take(options, ShownOptions);
    assert options != [] && (forall i | 0 <= i < |options| :: ',' !in options[i]) ==>
      Split(Join(shown, OptionSeparator), OptionSeparator) == shown
    by {
      if options != [] && (forall i | 0 <= i < |options| :: ',' !in options[i]) {
        assert OptionSeparator[0] == ',';
        SplitJoin(shown, OptionSeparator);
      }
    }
    Join(shown, OptionSeparator)
  }

  /** The candidate list for any candidates, commas in them or not: the first
      three (or as many as there are) in their original order, each pair
      separated by `", "`. */
  lemma {:induction false} OptionListNamesFirstThree(options: seq<string>)
    ensures |options| == 1 ==> OptionList(options) == options[0]
    ensures |options| == 2 ==> OptionList(options) == options[0] + ", " + options[1]
    ensures |options| >= 3 ==> OptionList(options) == options[0] + ", " + options[1] + ", " + options[2]
  {
    var shown := Take(options, ShownOptions);
    if |options| == 2 {
      assert shown[1..] == [options[1]];
      assert Join(shown, OptionSeparator) == options[0] + OptionSeparator + Join([options[1]], OptionSeparator);
    } else if |options| >= 3 {
      assert shown[1..] == [options[1], options[2]];
      assert [options[1], options[2]][1..] == [options[2]];
      assert Join([options[1], options[2]], OptionSeparator) == options[1] + OptionSeparator + options[2];
      assert Join(shown, OptionSeparator) == options[0] + OptionSeparator + Join([options[1], options[2]], OptionSeparator);
    }
  }

  /** The answer for a disambiguation: the intro, the candidate list, a full stop. */
  function AmbiguousAnswer(options: seq<string>): (answer: string)
    ensures |answer| == |AmbiguousIntro| + |OptionList(options)| + 1
    ensures answer[..|AmbiguousIntro|] == AmbiguousIntro
    ensures answer[|AmbiguousIntro|..|answer| - 1] == OptionList(options)
    ensures answer[|answer| - 1] == '.'
  {
    var list := OptionList(options);
    var answer := AmbiguousIntro + list + ".";
    assert answer[|AmbiguousIntro|..|answer| - 1] == list;
    answer
  }

  /** The inner `try`: the answer once the search returned at least one title. */
  function PageAnswer(page: PageOutcome): (answer: string)
    ensures page.Summary? ==> answer == page.text
    ensures page.Ambiguous? ==> answer == AmbiguousAnswer(page.options)
    ensures page.PageMissing? ==> answer == Rephrase
    ensures page.PageFailed? ==> answer == NoInternet
  {
    match page
    case Summary(text) => text
    case Ambiguous(options) => AmbiguousAnswer(options)
    case PageMissing => Rephrase
    case PageFailed => NoInternet
  }

  /** The whole of `get_wikipedia_answer` up to the hand-off: `fetch` gives
      the page outcome for a title, and only the top title is ever fetched. */
  function Answer(search: SearchOutcome, fetch: string -> PageOutcome): (answer: string)
    ensures search.SearchFailed? ==> answer == NoInternet
    ensures search == Titles([]) ==> answer == NotFound
    ensures search.Titles? && search.titles != [] ==> answer == PageAnswer(fetch(search.titles[0]))
  {
    match search
    case SearchFailed => NoInternet
    case Titles(titles) =>
      if titles == [] then NotFound else PageAnswer(fetch(titles[0]))
  }

  /** Only the top search result is looked up: two fetchers that agree on it
      give the same answer, whatever the other titles are. */
  lemma AnswerDependsOnTopTitleOnly(titles: seq<string>, f: string -> PageOutcome, g: string -> PageOutcome)
    requires titles != [] && f(titles[0]) == g(titles[0])
    ensures Answer(Titles(titles), f) == Answer(Titles(titles), g)
    ensures Answer(Titles(titles), f) == Answer(Titles([titles[0]]), f)
  {
  }

  /** The canned answers can be told apart from each other and from any
      ambiguous answer (which is longer than the "no internet" one). */
  lemma CannedAnswersDistinct(options: seq<string>)
    ensures NotFound != Rephrase && NotFound != NoInternet && Rephrase != NoInternet
    ensures |AmbiguousAnswer(options)| > |NoInternet|
  {
  }

  /** The "no internet" answer appears exactly when a search or fetch failed
      for some other reason than a missing page or an ambiguity (or, in the
      corner case, when the summary itself reads so): the inner and the outer
      `except Exception` handlers give the same answer. */
  lemma {:induction false} NoInternetExactlyOnFailure(search: SearchOutcome, fetch: string -> PageOutcome)
    ensures Answer(search, fetch) == NoInternet <==>
      || search.SearchFailed?
      || (search.Titles? && search.titles != [] &&
            (fetch(search.titles[0]).PageFailed? || fetch(search.titles[0]) == Summary(NoInternet)))
  {
    if search.Titles? && search.titles != [] {
      var page := fetch(search.titles[0]);
      CannedAnswersDistinct(if page.Ambiguous? then page.options else []);
    } else {
      CannedAnswersDistinct([]);
    }
  }

  /** The ambiguous answer lists the first `min(3, |options|)` candidates, in
      their original order: splitting its list back at `", "` recovers exactly
      them, as long as no candidate title contains a comma. */
  lemma AmbiguousListsFirstThree(options: seq<string>)
    requires options != []
    requires forall i | 0 <= i < |options| :: ',' !in options[i]
    ensures var answer := AmbiguousAnswer(options);
      Split(answer[|AmbiguousIntro|..|answer| - 1], OptionSeparator) ==
        options[..if |options| < ShownOptions then |options| else ShownOptions]
  {
  }

  /** With no candidates at all the list is empty and the answer is the intro
      and the full stop alone. */
  lemma AmbiguousWithoutOptions()
    ensures AmbiguousAnswer([]) == AmbiguousIntro + "."
  {
  }

  /** Four candidates A, B, C, D: the answer names A, B and C and not D. */
  lemma AmbiguousScenario()
    ensures AmbiguousAnswer(["A", "B", "C", "D"]) == AmbiguousIntro + "A, B, C."
  {
    var shown := Take(["A", "B", "C", "D"], ShownOptions);
    assert shown == ["A", "B", "C"];
    assert shown[1..][1..] == ["C"];
    assert Join(shown[1..], OptionSeparator) == "B, C";
    assert OptionList(["A", "B", "C", "D"]) == "A, B, C";
  }
}
