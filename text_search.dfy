/**
 * Type-ahead suggestions: the first five texts of a fixed list that contain what has been
 * typed so far, ignoring case.
 */
module TextSearch {
  import opened JsText
  import opened Seqs

  function SuggestionTest(query: string): string -> bool {
    s => Includes(Lower(s), Lower(query))
  }

  /** `all.filter(s => s.toLowerCase().includes(query.toLowerCase())).slice(0, 5)`: at most
      five texts of `all` containing the query, ignoring case, in list order. */
  function Suggestions(all: seq<string>, query: string): (r: seq<string>)
    ensures |r| <= 5
    ensures forall i :: 0 <= i < |r| ==> r[i] in all && Includes(Lower(r[i]), Lower(query))
    ensures r <= Filter(all, SuggestionTest(query))
    ensures |r| == 5 || r == Filter(all, SuggestionTest(query))
  {
    Slice(Filter(all, SuggestionTest(query)), 0, 5)
  }

  /** Every text contains the empty query, so it suggests the first five texts. */
  lemma SuggestionsForEmptyQuery(all: seq<string>)
    ensures Suggestions(all, "") == Slice(all, 0, 5)
  {
    forall i | 0 <= i < |all| ensures SuggestionTest("")(all[i]) {
      IncludesAt(Lower(all[i]), "");
      assert OccursAt(Lower(all[i]), "", 0);
    }
    FilterAll(all, SuggestionTest(""));
  }
}
