/**
 * The studies grid: the largest note count that scales the progress bars,
 * and the search filter and sort orders applied to the list of languages.
 */
module StudiesGrid {
  import opened Wrappers
  import opened Strings
  import opened Sequences
  import opened Catalog

  /** `Math.max(...counts, 1)`: the largest note count, and at least 1. */
  function MaxNotes(languages: seq<Language>): (m: nat)
    ensures m >= 1
    ensures forall i :: 0 <= i < |languages| ==> |languages[i].notes| <= m
    ensures m == 1 || exists i :: 0 <= i < |languages| && |languages[i].notes| == m
  {
    if languages == [] then 1
    else
      var rest := MaxNotes(languages[1..]);
      assert forall i :: 1 <= i < |languages| ==> languages[i] == languages[1..][i - 1];
      if |languages[0].notes| > rest then |languages[0].notes| else rest
  }

  /** Some note title, lower-cased, contains the query. */
  function SomeTitleIncludes(notes: seq<NoteEntry>, query: string): (r: bool)
    ensures r <==> exists i :: 0 <= i < |notes| && Includes(ToLower(notes[i].title), query)
  {
    if notes == [] then false
    else Includes(ToLower(notes[0].title), query) || SomeTitleIncludes(notes[1..], query)
  }

  /** A language matches a lower-cased query through its name or one of its note titles. */
  predicate Matches(l: Language, query: string) {
    Includes(ToLower(l.name), query) || SomeTitleIncludes(l.notes, query)
  }

  /** The matching languages, in their order. */
  function KeepMatching(languages: seq<Language>, query: string): (r: seq<Language>)
    ensures |r| <= |languages|
    ensures forall l :: l in r <==> l in languages && Matches(l, query)
  {
    if languages == [] then []
    else (if Matches(languages[0], query) then [languages[0]] else []) + KeepMatching(languages[1..], query)
  }

  /**
   * The search step: a query that trims to nothing keeps every language;
   * otherwise the query is lower-cased, but not trimmed, and only matching
   * languages stay.
   */
  function Filtered(languages: seq<Language>, query: string): seq<Language> {
    if Trim(query) == "" then languages else KeepMatching(languages, ToLower(query))
  }

  /** A blank query filters nothing out. */
  lemma BlankQueryKeepsAll(languages: seq<Language>, query: string)
    requires IsBlank(query)
    ensures Filtered(languages, query) == languages
  {
    TrimEmptyIffBlank(query);
  }

  /** A non-blank query keeps exactly the languages that match it lower-cased. */
  lemma QueryKeepsExactlyMatches(languages: seq<Language>, query: string)
    requires !IsBlank(query)
    ensures forall l :: l in Filtered(languages, query) <==> l in languages && Matches(l, ToLower(query))
  {
    TrimEmptyIffBlank(query);
  }

  /** The query is not trimmed: " go" does not find the language named "Go". */
  lemma QueryIsNotTrimmed()
    ensures Filtered([Language("go", "Go", "", [], None)], " go") == []
  {
    var l := Language("go", "Go", "", [], None);
    SpaceGoIsNotBlank();
    LowerSpaceGo();
    assert !Matches(l, " go") by {
      LowerGo();
      assert !Includes("go", " go");
    }
    assert KeepMatching([l], " go") == [] + KeepMatching([], " go");
  }

  lemma SpaceGoIsNotBlank()
    ensures Trim(" go") != ""
  {
    assert !IsJsWhitespace(" go"[1]);
    TrimEmptyIffBlank(" go");
  }

  lemma LowerSpaceGo()
    ensures ToLower(" go") == " go"
  {
    var r := ToLower(" go");
    assert r[0] == ' ' && r[1] == 'g' && r[2] == 'o';
  }

  lemma LowerGo()
    ensures ToLower("Go") == "go"
  {
    var r := ToLower("Go");
    assert r[0] == 'g' && r[1] == 'o';
  }

  datatype SortBy = ByNotes | Az | Recent

  /**
   * The sort key of each order, largest first: the note count; the negated
   * position of the name in the locale's collation order `rank`; and the
   * most recent note date, 0 for a language without dated notes.
   */
  function SortKey(sortBy: SortBy, rank: string -> int): Language -> int {
    match sortBy
    case ByNotes => (l: Language) => |l.notes|
    case Az => (l: Language) => -rank(l.name)
    case Recent => (l: Language) => LatestDate(l.notes).GetOr(0)
  }

  /**
   * The list the grid shows: a copy of the languages, filtered by the
   * query, then sorted in place by the chosen order.
   */
  method FilterAndSort(languages: seq<Language>, query: string, sortBy: SortBy, rank: string -> int)
    returns (result: seq<Language>)
    ensures multiset(result) == multiset(Filtered(languages, query))
    ensures sortBy == ByNotes ==>
      forall i, j :: 0 <= i < j < |result| ==> |result[i].notes| >= |result[j].notes|
    ensures sortBy == Az ==>
      forall i, j :: 0 <= i < j < |result| ==> rank(result[i].name) <= rank(result[j].name)
    ensures sortBy == Recent ==>
      forall i, j :: 0 <= i < j < |result| ==> LatestDate(result[i].notes).GetOr(0) >= LatestDate(result[j].notes).GetOr(0)
    ensures forall k :: WithKey(result, SortKey(sortBy, rank), k) == WithKey(Filtered(languages, query), SortKey(sortBy, rank), k)
  {
    result := languages;
    if Trim(query) != "" {
      var q := ToLower(query);
      result := KeepMatching(result, q);
    }
    var key := SortKey(sortBy, rank);
    var filtered := result;
    result := SortDescending(filtered, key);
    assert Descending(result, key);
    forall k ensures WithKey(result, key, k) == WithKey(filtered, key, k) {
      SortIsStable(filtered, key, k);
    }
  }
}
