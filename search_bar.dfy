/**
 * The navbar's search box (`SearchBar`): the word typed so far, the
 * suggestions it filters out of the flattened catalogue, and where
 * submitting or picking a suggestion navigates.
 */
module SearchBar {
  import opened Wrappers
  import opened Json
  import Text
  import Lists
  import opened Routes

  datatype Kind = ArtistEntry | AlbumEntry | SongEntry

  /** One searchable entry `{ title, link, type }`. */
  datatype Entry = Entry(title: Option<Json>, link: string, kind: Kind)

  /** How many suggestions the drop-down renders. */
  const MaxShown: nat := 15

  /** `value.title.toLowerCase()` only works on a string title. */
  predicate HasTextTitle(e: Entry)
  {
    e.title.Some? && e.title.value.Str?
  }

  /** `value.title.toLowerCase().includes(word.toLowerCase())`. */
  predicate Suggests(word: string, e: Entry)
  {
    HasTextTitle(e) && Text.ContainsIgnoringCase(e.title.value.s, word)
  }

  /**
   * The suggestion list for `word`: nothing when `data` is not an array or
   * the word is empty, otherwise the matching entries.
   */
  function Suggestions(data: Option<seq<Entry>>, word: string): seq<Entry>
  {
    if data.None? || word == "" then [] else Lists.Filter(data.value, e => Suggests(word, e))
  }

  /** Where submitting `word` goes: the trimmed word's search page, unless it is blank. */
  function SubmissionRoute(word: string): Option<Route>
  {
    var t := Text.Trim(word);
    if t != "" then Some(Search(t)) else None
  }

  class SearchBox {
    var wordEntered: string
    var filteredData: seq<Entry>

    constructor()
      ensures wordEntered == "" && filteredData == []
    {
      wordEntered := "";
      filteredData := [];
    }

    /** The suggestions on screen: `filteredData.slice(0, 15)`. */
    function Shown(): (r: seq<Entry>)
      reads this
      ensures |r| <= MaxShown && |r| <= |filteredData|
      ensures r == filteredData[..|r|]
    {
      Lists.Prefix(filteredData, MaxShown)
    }

    /**
     * `handleFilter`: stores the raw word and recomputes the suggestions.
     * Every title must be a string, or `toLowerCase` throws.
     */
    method HandleFilter(searchWord: string, data: Option<seq<Entry>>)
      requires data.Some? ==> forall e :: e in data.value ==> HasTextTitle(e)
      modifies this
      ensures wordEntered == searchWord
      ensures filteredData == Suggestions(data, searchWord)
    {
      wordEntered := searchWord;
      if data.Some? {
        var newFilter := Lists.Filter(data.value, e => Suggests(searchWord, e));
        filteredData := if searchWord == "" then [] else newFilter;
      } else {
        filteredData := [];
      }
    }

    method ClearInput()
      modifies this
      ensures wordEntered == "" && filteredData == []
    {
      filteredData := [];
      wordEntered := "";
    }

    /** `handleSearchSubmission`: the navigation it triggers, if any. */
    method HandleSearchSubmission() returns (nav: Option<Route>)
      ensures nav == SubmissionRoute(wordEntered)
    {
      var t := Text.Trim(wordEntered);
      if t != "" {
        nav := Some(Search(t));
      } else {
        nav := None;
      }
    }

    /** `handleKeyPress`: only Enter submits. */
    method HandleKeyPress(key: string) returns (nav: Option<Route>)
      ensures key != "Enter" ==> nav.None?
      ensures key == "Enter" ==> nav == SubmissionRoute(wordEntered)
    {
      if key == "Enter" {
        nav := HandleSearchSubmission();
      } else {
        nav := None;
      }
    }

    /** `handleSuggestionClick`: clears the box, then searches for the suggestion's title. */
    method HandleSuggestionClick(value: Entry) returns (nav: Route)
      modifies this
      ensures wordEntered == "" && filteredData == []
      ensures nav == Search(Show(value.title))
    {
      ClearInput();
      nav := Search(Show(value.title));
    }
  }

  /** An empty word, or data that is not an array, gives no suggestions. */
  lemma NoSuggestions(data: Option<seq<Entry>>, word: string)
    ensures word == "" ==> Suggestions(data, word) == []
    ensures data.None? ==> Suggestions(data, word) == []
  {
  }

  /**
   * For a non-empty word the suggestions are exactly the entries whose title
   * contains the word ignoring case, in the order of the data.
   */
  lemma SuggestionsExact(data: seq<Entry>, word: string)
    requires word != ""
    ensures forall e :: e in Suggestions(Some(data), word) <==> e in data && Suggests(word, e)
    ensures Lists.IsSubsequence(Suggestions(Some(data), word), data)
  {
    Lists.FilterIsSubsequence(data, e => Suggests(word, e));
  }

  /** Submission navigates exactly when the word has a non-space character. */
  lemma SubmissionIff(word: string)
    ensures SubmissionRoute(word).Some? <==> exists i :: 0 <= i < |word| && !Text.IsSpace(word[i])
  {
    Text.TrimEmptyIff(word);
  }

  /** The query submitted is the word without surrounding white space, already trimmed. */
  lemma SubmissionQuery(word: string)
    requires SubmissionRoute(word).Some?
    ensures var q := SubmissionRoute(word).value.query;
      q == Text.Trim(word) && q != "" && !Text.IsSpace(q[0]) && !Text.IsSpace(q[|q| - 1]) && Text.Trim(q) == q
  {
    var t := Text.Trim(word);
    assert SubmissionRoute(word) == Some(Search(t));
    Text.TrimmedEnds(word);
  }
}
